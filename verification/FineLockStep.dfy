/**
 Fault-free runs at the code's own granularity. Each job has at most one task with
 work left, so nobody else writes a row while a window on it is open: these runs
 are undisturbed by themselves, and the results of `LockStep` hold as they are.
 */
module FineLockStep {
  import opened Wrappers
  import opened Jobs
  import opened Protocol
  import opened Integrity
  import opened LockStep
  import opened Windows
  import opened Races

  predicate FineFaultFree(f: Fine, step: FineStep) {
    step.Plain? ==> FaultFree(f.s, step.step)
  }

  predicate FineFaultFreeRun(c: Config, f: Fine, steps: seq<FineStep>)
    requires FineLegal(c, f, steps)
    decreases |steps|
  {
    steps == [] || (FineFaultFree(f, steps[0]) && FineFaultFreeRun(c, FineApply(c, f, steps[0]), steps[1..]))
  }

  /** A task that still has to write its row, or may. */
  predicate Working(pc: Pc) {
    AtWindow(pc) || pc.AtCommit?
  }

  /** No two tasks of one job are working. */
  lemma OneWorker(c: Config, s: State, t: TaskId, u: TaskId)
    requires InStep(c, s) && t < |s.tasks| && u < |s.tasks| && s.tasks[t].msg.jobId == s.tasks[u].msg.jobId
    requires Working(s.tasks[t].pc) && Working(s.tasks[u].pc)
    ensures t == u
  {
    LiveInPhase(c, s, t);
    LiveInPhase(c, s, u);
    OneCurrent(s, s.tasks[t].entry, s.tasks[u].entry);
  }

  /** The row a step writes is new, or that of its own working task. */
  predicate WritesItsOwn(f: Fine, step: FineStep, d: Change) {
    d.write.Some? ==>
      || d.write.value.id !in f.s.rows
      || (Actor(step).Some? && Actor(step).value < |f.s.tasks|
          && Working(f.s.tasks[Actor(step).value].pc) && f.s.tasks[Actor(step).value].msg.jobId == d.write.value.id)
  }

  lemma PlainWritesItsOwn(c: Config, f: Fine, step: Step)
    requires FineIntact(c, f) && FineEnabled(c, f, Plain(step))
    ensures WritesItsOwn(f, Plain(step), ChangeOf(c, f.s, step))
  {
    if OfTask(step) { assert TaskOk(c, f.s, f.s.tasks[step.task]) && PointerOk(c, f.s.rows, f.s.tasks[step.task].msg); }
  }

  lemma WindowWritesItsOwn(c: Config, f: Fine, step: FineStep, row: Option<Job>)
    requires FineIntact(c, f) && FineEnabled(c, f, step) && !step.Plain?
    requires row.Some? ==> row.value.id == f.s.tasks[step.task].msg.jobId
    ensures WritesItsOwn(f, step, WindowChange(f.s, step.task, AfterWindow(f.s.tasks[step.task].pc, row)))
  {
  }

  /** A change spares the row of every task other than its writer. */
  lemma RowStands(c: Config, f: Fine, step: FineStep, d: Change, u: TaskId)
    requires FineIntact(c, f) && InStep(c, f.s) && WritesItsOwn(f, step, d) && ChangeOk(c, f.s, d)
    requires u < |f.s.tasks| && AtWindow(f.s.tasks[u].pc) && Actor(step) != Some(u)
    ensures RowOf(Perform(f.s, d), u) == RowOf(f.s, u)
  {
    ChangeGrows(c, f.s, d);
    assert TaskOk(c, f.s, f.s.tasks[u]) && PointerOk(c, f.s.rows, f.s.tasks[u].msg);
    if d.write.Some? && d.write.value.id == f.s.tasks[u].msg.jobId {
      OneWorker(c, f.s, Actor(step).value, u);
    }
  }

  lemma PlainSparesRow(c: Config, f: Fine, st: Step, u: TaskId)
    requires FineIntact(c, f) && InStep(c, f.s) && FineEnabled(c, f, Plain(st))
    requires u < |f.s.tasks| && AtWindow(f.s.tasks[u].pc) && Actor(Plain(st)) != Some(u)
    ensures RowOf(Perform(f.s, ChangeOf(c, f.s, st)), u) == RowOf(f.s, u)
  {
    PlainWritesItsOwn(c, f, st);
    EveryChangeOk(c, f.s, st);
    RowStands(c, f, Plain(st), ChangeOf(c, f.s, st), u);
  }

  lemma WindowSparesRow(c: Config, f: Fine, step: FineStep, row: Option<Job>, u: TaskId)
    requires FineIntact(c, f) && InStep(c, f.s) && FineEnabled(c, f, step) && !step.Plain?
    requires var j := f.s.tasks[step.task].msg.jobId; row.Some? ==>
               j in f.s.rows && SameIdentity(f.s.rows[j], row.value)
    requires u < |f.s.tasks| && AtWindow(f.s.tasks[u].pc) && step.task != u
    ensures RowOf(Perform(f.s, WindowChange(f.s, step.task, AfterWindow(f.s.tasks[step.task].pc, row))), u) ==
            RowOf(f.s, u)
  {
    var d := WindowChange(f.s, step.task, AfterWindow(f.s.tasks[step.task].pc, row));
    TaskHasRow(c, f.s, step.task);
    WindowWritesItsOwn(c, f, step, row);
    WindowChangeOk(c, f.s, step.task, row);
    RowStands(c, f, step, d, u);
  }

  lemma OpenWindowStands(c: Config, f: Fine, step: FineStep, u: TaskId)
    requires FineIntact(c, f) && InStep(c, f.s) && FineEnabled(c, f, step)
    requires u in f.open && u < |f.s.tasks| && Actor(step) != Some(u)
    ensures u < |FineApply(c, f, step).s.tasks|
    ensures RowOf(FineApply(c, f, step).s, u) == RowOf(f.s, u)
  {
    assert OpenOk(f, u, f.open[u]);
    OthersStand(c, f, step, u);
    match step
    case Plain(st) => PlainSparesRow(c, f, st, u);
    case Get(t) => if !Opens(f, t) { WindowSparesRow(c, f, step, RowOf(f.s, t), u); }
    case Update(t) =>
      assert OpenOk(f, t, f.open[t]);
      WindowSparesRow(c, f, step, Some(f.open[t]), u);
  }

  /** In step, no step disturbs an open window. */
  lemma InStepIsUndisturbed(c: Config, f: Fine, step: FineStep)
    requires FineIntact(c, f) && InStep(c, f.s) && FineEnabled(c, f, step)
    ensures Undisturbed(c, f, step)
  {
    forall u | u in f.open && Actor(step) != Some(u) && u < |f.s.tasks|
      ensures u < |FineApply(c, f, step).s.tasks|
      ensures RowOf(FineApply(c, f, step).s, u) == RowOf(f.s, u)
    {
      OpenWindowStands(c, f, step, u);
    }
  }

  ghost predicate FineInStep(c: Config, f: Fine) {
    FineIntact(c, f) && InStep(c, f.s) && Fresh(f)
  }

  /** A window taken as one step is no fault. */
  lemma WindowIsFaultFree(s: State, t: TaskId)
    requires t < |s.tasks|
    ensures FaultFree(s, WindowStep(s, t))
  {
  }

  lemma StepStaysInStepFine(c: Config, f: Fine, step: FineStep)
    requires FineInStep(c, f) && FineEnabled(c, f, step) && FineFaultFree(f, step)
    ensures FineInStep(c, FineApply(c, f, step))
  {
    InStepIsUndisturbed(c, f, step);
    StepKeepsFresh(c, f, step);
    FineStepKeepsIntact(c, f, step);
    StepRefines(c, f, step);
    var steps := Lift(c, f, step);
    if steps != [] {
      if !step.Plain? { WindowIsFaultFree(f.s, step.task); }
      assert steps[1..] == [];
      StepStaysInStep(c, f.s, steps[0]);
    }
  }

  // ------------------------------------------------------------ main results

  /** A fault-free fine run stays in step, and is undisturbed. */
  lemma {:induction false} RunStaysInStepFine(c: Config, f: Fine, steps: seq<FineStep>)
    requires FineInStep(c, f) && FineLegal(c, f, steps) && FineFaultFreeRun(c, f, steps)
    ensures FineInStep(c, FineExec(c, f, steps)) && UndisturbedRun(c, f, steps)
    decreases |steps|
  {
    if steps != [] {
      InStepIsUndisturbed(c, f, steps[0]);
      StepStaysInStepFine(c, f, steps[0]);
      RunStaysInStepFine(c, FineApply(c, f, steps[0]), steps[1..]);
    }
  }

  /** No transition is refused, no row is missing, and every open window's copy is still the row. */
  lemma NothingIsRefusedFine(c: Config, steps: seq<FineStep>, t: TaskId)
    requires FineLegal(c, FINE_INITIAL, steps) && FineFaultFreeRun(c, FINE_INITIAL, steps)
    requires t < |FineExec(c, FINE_INITIAL, steps).s.tasks|
    ensures var f := FineExec(c, FINE_INITIAL, steps);
            && RowOf(f.s, t).Some? && !Refused(f.s, t)
            && (t in f.open ==> RowOf(f.s, t) == Some(f.open[t]))
  {
    var f := FineExec(c, FINE_INITIAL, steps);
    RunStaysInStepFine(c, FINE_INITIAL, steps);
    InStepRefusesNothing(c, f.s, t);
  }

  /** Row and current pointer agree in every fault-free fine run. */
  lemma RowFollowsPointerFine(c: Config, steps: seq<FineStep>, e: EntryId)
    requires FineLegal(c, FINE_INITIAL, steps) && FineFaultFreeRun(c, FINE_INITIAL, steps)
    requires Current(FineExec(c, FINE_INITIAL, steps).s, e)
    ensures InAgreement(c, FineExec(c, FINE_INITIAL, steps).s, e)
  {
    RunStaysInStepFine(c, FINE_INITIAL, steps);
    InStepAgrees(c, FineExec(c, FINE_INITIAL, steps).s, e);
  }

  /** A quiet system is a finished one. */
  lemma QuiescentMeansFinishedFine(c: Config, steps: seq<FineStep>)
    requires FineLegal(c, FINE_INITIAL, steps) && FineFaultFreeRun(c, FINE_INITIAL, steps)
    requires Quiescent(FineExec(c, FINE_INITIAL, steps).s)
    ensures AllFinished(c, FineExec(c, FINE_INITIAL, steps).s)
  {
    RunStaysInStepFine(c, FINE_INITIAL, steps);
    RestMeansFinished(c, FineExec(c, FINE_INITIAL, steps).s);
  }
}
