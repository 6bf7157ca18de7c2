/**
 What the code's split windows keep, and from how little. Requeue and fail
 windows may be overtaken freely: their stale writes cannot lose a job or let two
 executions overlap. Only the begin write has to find its row still pending,
 which a conditional update of the row could ensure.
 */
module Races {
  import opened Wrappers
  import opened Jobs
  import opened Protocol
  import opened Integrity
  import opened Execution
  import opened NoLoss
  import opened Windows

  // ---------------------------------------------------------- the hypothesis

  /** A begin write finds its row still pending. */
  predicate Guarded(f: Fine, step: FineStep) {
    step.Update? && step.task < |f.s.tasks| && f.s.tasks[step.task].pc.AtBegin? ==>
      RowOf(f.s, step.task).Some? && RowOf(f.s, step.task).value.status == Pending
  }

  predicate GuardedRun(c: Config, f: Fine, steps: seq<FineStep>)
    requires FineLegal(c, f, steps)
    decreases |steps|
  {
    steps == [] || (Guarded(f, steps[0]) && GuardedRun(c, FineApply(c, f, steps[0]), steps[1..]))
  }

  /** Undisturbed runs are guarded; the converse fails, since other windows may be overtaken. */
  lemma {:induction false} UndisturbedIsGuarded(c: Config, f: Fine, steps: seq<FineStep>)
    requires Fresh(f) && FineLegal(c, f, steps) && UndisturbedRun(c, f, steps)
    ensures GuardedRun(c, f, steps)
    decreases |steps|
  {
    if steps != [] {
      StepKeepsFresh(c, f, steps[0]);
      UndisturbedIsGuarded(c, FineApply(c, f, steps[0]), steps[1..]);
    }
  }

  // --------------------------------------------------------------- invariant

  /** An execution's row is running or failed, and what it is about to write is a success. */
  ghost predicate HolderRows(s: State) {
    forall t :: 0 <= t < |s.tasks| && Holds(s.tasks[t].pc) ==>
      && s.tasks[t].msg.jobId in s.rows && s.rows[s.tasks[t].msg.jobId].status in {Running, Failed}
      && (s.tasks[t].pc.AtCommit? ==> s.tasks[t].pc.job.status == Success)
  }

  predicate PastBurial(pc: Pc) {
    pc.AtAckDead? || pc.AtFail?
  }

  /** A failed row has a dead letter, and so has a task that is about to fail one. */
  ghost predicate FailuresBuried(s: State) {
    && (forall j :: j in s.rows && s.rows[j].status == Failed ==> DeadLettered(s, j))
    && (forall t :: 0 <= t < |s.tasks| && PastBurial(s.tasks[t].pc) ==> DeadLettered(s, s.tasks[t].msg.jobId))
  }

  ghost predicate Loose(c: Config, s: State) {
    Intact(c, s) && OneHolder(s) && HolderRows(s) && FailuresBuried(s)
  }

  /** The ways a change can touch rows and executions when windows may be stale. */
  predicate Calm(s: State, d: Change) {
    && d.write.None?
    && (d.move.Goto? && Holds(d.move.pc) ==>
          && d.move.task < |s.tasks| && Holds(s.tasks[d.move.task].pc)
          && (d.move.pc.AtCommit? ==> d.move.pc.job.status == Success))
    && (d.move.Spawn? ==> !Holds(d.move.pc))
  }

  predicate Inserts(s: State, d: Change) {
    d.write.Some? && d.write.value.id !in s.rows && d.write.value.status == Pending && d.move.Stay?
  }

  predicate Enters(s: State, d: Change) {
    && Writes(s, d)
    && s.rows[d.write.value.id].status == Pending && d.write.value.status == Running
    && d.move.pc.AtStart?
  }

  /** The holder's last write: success, or back to pending. */
  predicate Leaves(s: State, d: Change) {
    && Writes(s, d)
    && Holds(s.tasks[d.move.task].pc) && !Holds(d.move.pc)
    && d.write.value.status in {Success, Pending}
  }

  predicate Condemns(s: State, d: Change) {
    && Writes(s, d)
    && s.tasks[d.move.task].pc.AtFail? && !Holds(d.move.pc)
    && d.write.value.status == Failed
  }

  predicate Tame(s: State, d: Change) {
    Calm(s, d) || Inserts(s, d) || Enters(s, d) || Leaves(s, d) || Condemns(s, d)
  }

  /** A task gets past its burial only by burying, or by having been there. */
  predicate Buries(s: State, d: Change) {
    && (d.move.Goto? && PastBurial(d.move.pc) && d.move.task < |s.tasks| ==>
          PastBurial(s.tasks[d.move.task].pc) || (d.bury.Some? && d.bury.value.msg == s.tasks[d.move.task].msg))
    && (d.move.Spawn? ==> !PastBurial(d.move.pc))
  }

  // ------------------------------------------------------- changes keep it

  lemma KeepsOneHolder(c: Config, s: State, d: Change)
    requires Loose(c, s) && Tame(s, d)
    ensures OneHolder(Perform(s, d))
  {
  }

  lemma KeepsHolderRows(c: Config, s: State, d: Change)
    requires Loose(c, s) && ChangeOk(c, s, d) && Tame(s, d)
    ensures HolderRows(Perform(s, d))
  {
    var s' := Perform(s, d);
    forall t | 0 <= t < |s'.tasks| && Holds(s'.tasks[t].pc)
      ensures s'.tasks[t].msg.jobId in s'.rows && s'.rows[s'.tasks[t].msg.jobId].status in {Running, Failed}
      ensures s'.tasks[t].pc.AtCommit? ==> s'.tasks[t].pc.job.status == Success
    {
      assert t < |s.tasks|;
    }
  }

  lemma LetterStays(s: State, d: Change, j: JobId)
    requires DeadLettered(s, j)
    ensures DeadLettered(Perform(s, d), j)
  {
    var i :| 0 <= i < |s.dlq| && s.dlq[i].msg.jobId == j;
    assert Perform(s, d).dlq[i] == s.dlq[i];
  }

  lemma BurialIsLetter(s: State, d: Change)
    requires d.bury.Some?
    ensures DeadLettered(Perform(s, d), d.bury.value.msg.jobId)
  {
    assert Perform(s, d).dlq[|s.dlq|] == d.bury.value;
  }

  lemma KeepsTasksBuried(c: Config, s: State, d: Change, t: TaskId)
    requires Loose(c, s) && ChangeOk(c, s, d) && Buries(s, d)
    requires t < |Perform(s, d).tasks| && PastBurial(Perform(s, d).tasks[t].pc)
    ensures DeadLettered(Perform(s, d), Perform(s, d).tasks[t].msg.jobId)
  {
    assert t < |s.tasks|;
    if PastBurial(s.tasks[t].pc) { LetterStays(s, d, s.tasks[t].msg.jobId); } else { BurialIsLetter(s, d); }
  }

  lemma KeepsRowsBuried(c: Config, s: State, d: Change, j: JobId)
    requires Loose(c, s) && Tame(s, d) && j in Perform(s, d).rows && Perform(s, d).rows[j].status == Failed
    ensures DeadLettered(Perform(s, d), j)
  {
    if Condemns(s, d) && d.write.value.id == j {
      LetterStays(s, d, s.tasks[d.move.task].msg.jobId);
    } else {
      LetterStays(s, d, j);
    }
  }

  lemma ChangeKeepsLoose(c: Config, s: State, d: Change)
    requires Loose(c, s) && ChangeOk(c, s, d) && Tame(s, d) && Buries(s, d)
    ensures Loose(c, Perform(s, d))
  {
    var s' := Perform(s, d);
    ChangeKeepsIntegrity(c, s, d);
    KeepsOneHolder(c, s, d);
    KeepsHolderRows(c, s, d);
    forall j | j in s'.rows && s'.rows[j].status == Failed ensures DeadLettered(s', j) {
      KeepsRowsBuried(c, s, d, j);
    }
    forall t | 0 <= t < |s'.tasks| && PastBurial(s'.tasks[t].pc) ensures DeadLettered(s', s'.tasks[t].msg.jobId) {
      KeepsTasksBuried(c, s, d, t);
    }
  }

  // --------------------------------------------------- steps are such changes

  lemma LoopTame(c: Config, s: State, step: Step)
    requires Intact(c, s) && Enabled(c, s, step) && !OfTask(step)
    ensures Tame(s, ChangeOf(c, s, step)) && Buries(s, ChangeOf(c, s, step))
  {
  }

  lemma PlainTame(c: Config, s: State, step: Step)
    requires Loose(c, s) && Enabled(c, s, step) && OfTask(step) && !IsWindow(step)
    ensures Tame(s, ChangeOf(c, s, step)) && Buries(s, ChangeOf(c, s, step))
  {
    if step.Commit? { CommitTame(c, s, step.task, step.write); } else { TaskCalm(c, s, step); }
  }

  lemma CommitTame(c: Config, s: State, t: TaskId, outcome: WriteOutcome)
    requires Loose(c, s) && t < |s.tasks| && s.tasks[t].pc.AtCommit?
    ensures Tame(s, CommitChange(s, t, outcome)) && Buries(s, CommitChange(s, t, outcome))
  {
    assert TaskOk(c, s, s.tasks[t]) && PointerOk(c, s.rows, s.tasks[t].msg);
  }

  lemma TaskCalm(c: Config, s: State, step: Step)
    requires Enabled(c, s, step) && OfTask(step) && !IsWindow(step) && !step.Commit?
    ensures Calm(s, ChangeOf(c, s, step)) && Buries(s, ChangeOf(c, s, step))
  {
  }

  /** A window's end, its copy of the row stale or not; a begin window's row is pending. */
  lemma WindowTame(c: Config, s: State, t: TaskId, row: Option<Job>)
    requires Loose(c, s) && t < |s.tasks| && AtWindow(s.tasks[t].pc) && s.tasks[t].msg.jobId in s.rows
    requires row.Some? ==> SameIdentity(s.rows[s.tasks[t].msg.jobId], row.value)
    requires s.tasks[t].pc.AtBegin? && AfterBegin(row).0.Some? ==> s.rows[s.tasks[t].msg.jobId].status == Pending
    ensures var d := WindowChange(s, t, AfterWindow(s.tasks[t].pc, row)); Tame(s, d) && Buries(s, d)
  {
    assert TaskOk(c, s, s.tasks[t]) && PointerOk(c, s.rows, s.tasks[t].msg);
  }

  lemma WindowKeepsLoose(c: Config, s: State, t: TaskId, row: Option<Job>)
    requires Loose(c, s) && t < |s.tasks| && AtWindow(s.tasks[t].pc) && s.tasks[t].msg.jobId in s.rows
    requires row.Some? ==> SameIdentity(s.rows[s.tasks[t].msg.jobId], row.value)
    requires s.tasks[t].pc.AtBegin? && AfterBegin(row).0.Some? ==> s.rows[s.tasks[t].msg.jobId].status == Pending
    ensures Loose(c, Perform(s, WindowChange(s, t, AfterWindow(s.tasks[t].pc, row))))
  {
    WindowTame(c, s, t, row);
    WindowChangeOk(c, s, t, row);
    ChangeKeepsLoose(c, s, WindowChange(s, t, AfterWindow(s.tasks[t].pc, row)));
  }

  lemma PlainKeepsLoose(c: Config, s: State, step: Step)
    requires Loose(c, s) && Enabled(c, s, step) && !IsWindow(step)
    ensures Loose(c, Apply(c, s, step))
  {
    if OfTask(step) { PlainTame(c, s, step); } else { LoopTame(c, s, step); }
    EveryChangeOk(c, s, step);
    ChangeKeepsLoose(c, s, ChangeOf(c, s, step));
  }

  lemma TaskHasRow(c: Config, s: State, t: TaskId)
    requires Intact(c, s) && t < |s.tasks|
    ensures s.tasks[t].msg.jobId in s.rows
  {
    assert TaskOk(c, s, s.tasks[t]) && PointerOk(c, s.rows, s.tasks[t].msg);
  }

  lemma StepKeepsLoose(c: Config, f: Fine, step: FineStep)
    requires FineIntact(c, f) && Loose(c, f.s) && FineEnabled(c, f, step) && Guarded(f, step)
    ensures Loose(c, FineApply(c, f, step).s)
  {
    match step
    case Plain(st) => PlainKeepsLoose(c, f.s, st);
    case Get(t) =>
      TaskHasRow(c, f.s, t);
      if !Opens(f, t) { WindowKeepsLoose(c, f.s, t, RowOf(f.s, t)); }
    case Update(t) =>
      assert OpenOk(f, t, f.open[t]);
      WindowKeepsLoose(c, f.s, t, Some(f.open[t]));
  }

  /** What a fine step changes. */
  function FineChange(c: Config, f: Fine, step: FineStep): Change
    requires FineEnabled(c, f, step)
  {
    match step
    case Plain(st) => ChangeOf(c, f.s, st)
    case Get(t) =>
      if Opens(f, t) then Nothing(f.s) else WindowChange(f.s, t, AfterWindow(f.s.tasks[t].pc, RowOf(f.s, t)))
    case Update(t) => WindowChange(f.s, t, AfterWindow(f.s.tasks[t].pc, Some(f.open[t])))
  }

  lemma FineStepIsChange(c: Config, f: Fine, step: FineStep)
    requires FineIntact(c, f) && Loose(c, f.s) && FineEnabled(c, f, step) && Guarded(f, step)
    ensures var d := FineChange(c, f, step);
            FineApply(c, f, step).s == Perform(f.s, d) && ChangeOk(c, f.s, d) && Tame(f.s, d)
  {
    match step
    case Plain(st) =>
      EveryChangeOk(c, f.s, st);
      if OfTask(st) { PlainTame(c, f.s, st); } else { LoopTame(c, f.s, st); }
    case Get(t) =>
      TaskHasRow(c, f.s, t);
      if !Opens(f, t) {
        WindowTame(c, f.s, t, RowOf(f.s, t));
        WindowChangeOk(c, f.s, t, RowOf(f.s, t));
      }
    case Update(t) =>
      assert OpenOk(f, t, f.open[t]);
      WindowTame(c, f.s, t, Some(f.open[t]));
      WindowChangeOk(c, f.s, t, Some(f.open[t]));
  }

  // ------------------------------------------------------------ main results

  ghost predicate FineInv(c: Config, f: Fine) {
    FineIntact(c, f) && Loose(c, f.s)
  }

  lemma StepKeepsFineInv(c: Config, f: Fine, step: FineStep)
    requires FineInv(c, f) && FineEnabled(c, f, step) && Guarded(f, step)
    ensures FineInv(c, FineApply(c, f, step))
  {
    FineStepKeepsIntact(c, f, step);
    StepKeepsLoose(c, f, step);
  }

  lemma {:induction false} RunKeepsFineInv(c: Config, f: Fine, steps: seq<FineStep>)
    requires FineInv(c, f) && FineLegal(c, f, steps) && GuardedRun(c, f, steps)
    ensures FineInv(c, FineExec(c, f, steps))
    decreases |steps|
  {
    if steps != [] {
      StepKeepsFineInv(c, f, steps[0]);
      RunKeepsFineInv(c, FineApply(c, f, steps[0]), steps[1..]);
    }
  }

  /** Executions do not overlap in such a run, and an executing job's row is running or failed. */
  lemma ExecutionsNeverOverlapFine(c: Config, steps: seq<FineStep>, t: TaskId, u: TaskId)
    requires FineLegal(c, FINE_INITIAL, steps) && GuardedRun(c, FINE_INITIAL, steps)
    requires var s := FineExec(c, FINE_INITIAL, steps).s;
             && t < |s.tasks| && u < |s.tasks| && s.tasks[t].msg.jobId == s.tasks[u].msg.jobId
             && s.tasks[t].pc.Executing? && s.tasks[u].pc.Executing?
    ensures t == u
    ensures var s := FineExec(c, FINE_INITIAL, steps).s;
            s.tasks[t].msg.jobId in s.rows && s.rows[s.tasks[t].msg.jobId].status in {Running, Failed}
  {
    RunKeepsFineInv(c, FINE_INITIAL, steps);
  }

  // -------------------------------------------- exactly when executions overlap

  /** A begin write made while another task of the job holds its execution. */
  predicate Contended(f: Fine, step: FineStep) {
    && step.Update? && step.task < |f.s.tasks| && f.s.tasks[step.task].pc.AtBegin?
    && exists u :: 0 <= u < |f.s.tasks| && u != step.task && HoldsJob(f.s.tasks[u], f.s.tasks[step.task].msg.jobId)
  }

  /** The move makes no task a holder that was none. */
  predicate NoNewHolder(s: State, d: Change) {
    && (d.move.Goto? && Holds(d.move.pc) ==> d.move.task < |s.tasks| && Holds(s.tasks[d.move.task].pc))
    && (d.move.Spawn? ==> !Holds(d.move.pc))
  }

  lemma PlainHolds(c: Config, s: State, step: Step)
    requires Enabled(c, s, step) && !IsWindow(step)
    ensures NoNewHolder(s, ChangeOf(c, s, step))
  {
    if OfTask(step) && !step.Commit? { TaskCalm(c, s, step); }
  }

  lemma WindowHolds(s: State, t: TaskId, row: Option<Job>)
    requires t < |s.tasks| && AtWindow(s.tasks[t].pc)
    ensures var after := AfterWindow(s.tasks[t].pc, row);
            (s.tasks[t].pc.AtBegin? && after.0.Some?) || NoNewHolder(s, WindowChange(s, t, after))
  {
  }

  lemma HoldersBefore(s: State, d: Change, t: TaskId)
    requires NoNewHolder(s, d) && t < |Perform(s, d).tasks| && Holds(Perform(s, d).tasks[t].pc)
    ensures t < |s.tasks| && Holds(s.tasks[t].pc) && Perform(s, d).tasks[t].msg == s.tasks[t].msg
  {
  }

  /** Only a begin write makes a task a holder. */
  lemma OnlyBeginHolds(c: Config, f: Fine, step: FineStep, t: TaskId)
    requires FineEnabled(c, f, step) && t < |FineApply(c, f, step).s.tasks|
             && Holds(FineApply(c, f, step).s.tasks[t].pc)
    ensures t < |f.s.tasks| && FineApply(c, f, step).s.tasks[t].msg == f.s.tasks[t].msg
    ensures Holds(f.s.tasks[t].pc) || (step == Update(t) && f.s.tasks[t].pc.AtBegin?)
  {
    match step
    case Plain(st) =>
      PlainHolds(c, f.s, st);
      HoldersBefore(f.s, ChangeOf(c, f.s, st), t);
    case Get(u) =>
      if !Opens(f, u) {
        WindowHolds(f.s, u, RowOf(f.s, u));
        HoldersBefore(f.s, WindowChange(f.s, u, AfterWindow(f.s.tasks[u].pc, RowOf(f.s, u))), t);
      }
    case Update(u) => UpdateHolds(c, f, u, t);
  }

  lemma UpdateHolds(c: Config, f: Fine, u: TaskId, t: TaskId)
    requires FineEnabled(c, f, Update(u))
    requires t < |FineApply(c, f, Update(u)).s.tasks| && Holds(FineApply(c, f, Update(u)).s.tasks[t].pc)
    ensures t < |f.s.tasks| && FineApply(c, f, Update(u)).s.tasks[t].msg == f.s.tasks[t].msg
    ensures Holds(f.s.tasks[t].pc) || (u == t && f.s.tasks[t].pc.AtBegin?)
  {
  }

  lemma BeginHolds(c: Config, f: Fine, t: TaskId)
    requires FineIntact(c, f) && FineEnabled(c, f, Update(t)) && f.s.tasks[t].pc.AtBegin?
    ensures var s' := FineApply(c, f, Update(t)).s;
            && t < |s'.tasks| && Holds(s'.tasks[t].pc) && s'.tasks[t].msg == f.s.tasks[t].msg
            && forall u :: 0 <= u < |f.s.tasks| && u != t ==> u < |s'.tasks| && s'.tasks[u] == f.s.tasks[u]
  {
    assert OpenOk(f, t, f.open[t]);
  }

  /** A step breaks exclusion if and only if it is such a write. */
  lemma OverlapStep(c: Config, f: Fine, step: FineStep)
    requires FineIntact(c, f) && FineEnabled(c, f, step) && OneHolder(f.s)
    ensures OneHolder(FineApply(c, f, step).s) <==> !Contended(f, step)
  {
    var s' := FineApply(c, f, step).s;
    if Contended(f, step) {
      var t := step.task;
      var u :| 0 <= u < |f.s.tasks| && u != t && HoldsJob(f.s.tasks[u], f.s.tasks[t].msg.jobId);
      BeginHolds(c, f, t);
      assert HoldsJob(s'.tasks[t], s'.tasks[u].msg.jobId) && Holds(s'.tasks[u].pc);
    } else {
      forall t, u | 0 <= t < |s'.tasks| && 0 <= u < |s'.tasks| && HoldsJob(s'.tasks[t], s'.tasks[u].msg.jobId)
        && Holds(s'.tasks[u].pc)
        ensures t == u
      {
        OnlyBeginHolds(c, f, step, t);
        OnlyBeginHolds(c, f, step, u);
      }
    }
  }

  predicate UncontendedRun(c: Config, f: Fine, steps: seq<FineStep>)
    requires FineLegal(c, f, steps)
    decreases |steps|
  {
    steps == [] || (!Contended(f, steps[0]) && UncontendedRun(c, FineApply(c, f, steps[0]), steps[1..]))
  }

  /** At no point of the run do two tasks hold one job. */
  ghost predicate ExclusiveThroughout(c: Config, f: Fine, steps: seq<FineStep>)
    requires FineLegal(c, f, steps)
    decreases |steps|
  {
    OneHolder(f.s) && (steps == [] || ExclusiveThroughout(c, FineApply(c, f, steps[0]), steps[1..]))
  }

  /** Without any hypothesis: executions are exclusive throughout a run if and only if no begin write is contended. */
  lemma {:induction false} ExclusiveIffUncontended(c: Config, f: Fine, steps: seq<FineStep>)
    requires FineIntact(c, f) && OneHolder(f.s) && FineLegal(c, f, steps)
    ensures ExclusiveThroughout(c, f, steps) <==> UncontendedRun(c, f, steps)
    decreases |steps|
  {
    if steps != [] {
      OverlapStep(c, f, steps[0]);
      if !Contended(f, steps[0]) {
        FineStepKeepsIntact(c, f, steps[0]);
        ExclusiveIffUncontended(c, FineApply(c, f, steps[0]), steps[1..]);
      }
    }
  }
}
