/**
 When the stored `attempts` counts the begin writes, with reads and writes apart.
 A write that was overtaken brings back the count its copy was read with, so the
 count is exact as long as every write finds the attempts its copy carries.
 */
module Counting {
  import opened Wrappers
  import opened Jobs
  import opened Protocol
  import opened Integrity
  import opened Execution
  import opened Windows
  import opened Races
  import opened FineRuns

  /** The copy of the row of `j` that the step writes back, as it was read or begun. */
  function CopyWritten(f: Fine, step: FineStep, j: JobId): Option<Job> {
    match step
    case Update(t) =>
      if t < |f.s.tasks| && f.s.tasks[t].msg.jobId == j && t in f.open then Some(f.open[t]) else None
    case Plain(st) =>
      if SavesSuccessOf(f, step, j) && f.s.tasks[st.task].pc.AtCommit? then Some(f.s.tasks[st.task].pc.job)
      else None
    case Get(_) => None
  }

  /** What the step writes back, if anything, carries the attempts the row has. */
  predicate FindsItsCount(f: Fine, step: FineStep, j: JobId) {
    CopyWritten(f, step, j).Some? ==> CopyWritten(f, step, j).value.attempts == AttemptsOf(f.s, j)
  }

  /** The step changes the stored attempts by the begin writes it makes. */
  predicate CountsStep(c: Config, f: Fine, step: FineStep, j: JobId)
    requires FineEnabled(c, f, step)
  {
    AttemptsOf(FineApply(c, f, step).s, j) == AttemptsOf(f.s, j) + BeginsOf(f, step, j)
  }

  lemma UpdateCounts(c: Config, f: Fine, t: TaskId)
    requires FineIntact(c, f) && FineEnabled(c, f, Update(t))
    ensures var row := AfterWindow(f.s.tasks[t].pc, Some(f.open[t])).0;
            && row.Some? && row.value.id == f.s.tasks[t].msg.jobId
            && row.value.attempts == f.open[t].attempts + if f.s.tasks[t].pc.AtBegin? then 1 else 0
  {
    assert OpenOk(f, t, f.open[t]);
  }

  lemma PlainCounts(c: Config, f: Fine, step: Step, j: JobId)
    requires FineIntact(c, f) && FineEnabled(c, f, Plain(step))
    ensures CountsStep(c, f, Plain(step), j) <==> FindsItsCount(f, Plain(step), j)
  {
    if OfTask(step) {
      TaskHasRow(c, f.s, step.task);
      assert TaskOk(c, f.s, f.s.tasks[step.task]);
    }
  }

  lemma CountsStepIff(c: Config, f: Fine, step: FineStep, j: JobId)
    requires FineIntact(c, f) && FineEnabled(c, f, step)
    ensures CountsStep(c, f, step, j) <==> FindsItsCount(f, step, j)
  {
    match step
    case Plain(st) => PlainCounts(c, f, st, j);
    case Get(t) => if !Opens(f, t) { RefusedWritesNothing(f, t); }
    case Update(t) =>
      UpdateCounts(c, f, t);
      TaskHasRow(c, f.s, t);
  }

  /** At every point of the run, the row has counted every begin write since its start. */
  predicate CountedThroughout(c: Config, f: Fine, steps: seq<FineStep>, j: JobId)
    requires FineLegal(c, f, steps)
    decreases |steps|
  {
    steps == [] || (CountsStep(c, f, steps[0], j) && CountedThroughout(c, FineApply(c, f, steps[0]), steps[1..], j))
  }

  predicate CountsFound(c: Config, f: Fine, steps: seq<FineStep>, j: JobId)
    requires FineLegal(c, f, steps)
    decreases |steps|
  {
    steps == [] || (FindsItsCount(f, steps[0], j) && CountsFound(c, FineApply(c, f, steps[0]), steps[1..], j))
  }

  /**
   In every run, the stored attempts counts the begin writes at every point if and
   only if every window write and every landed success write finds the attempts
   its copy carries.
   */
  lemma {:induction false} AttemptsCountBeginsIff(c: Config, f: Fine, steps: seq<FineStep>, j: JobId)
    requires FineIntact(c, f) && FineLegal(c, f, steps)
    ensures CountedThroughout(c, f, steps, j) <==> CountsFound(c, f, steps, j)
    ensures CountedThroughout(c, f, steps, j) ==>
              AttemptsOf(FineExec(c, f, steps).s, j) == AttemptsOf(f.s, j) + FineBegun(c, f, steps, j)
    decreases |steps|
  {
    if steps != [] {
      CountsStepIff(c, f, steps[0], j);
      FineStepKeepsIntact(c, f, steps[0]);
      AttemptsCountBeginsIff(c, FineApply(c, f, steps[0]), steps[1..], j);
    }
  }

  /** Then, and with no begin lost or under way, the attempts are the pipeline calls of the whole run. */
  lemma AttemptsCountStartsFine(c: Config, steps: seq<FineStep>, j: JobId)
    requires FineLegal(c, FINE_INITIAL, steps) && CountsFound(c, FINE_INITIAL, steps, j)
    ensures var s := FineExec(c, FINE_INITIAL, steps).s;
            AttemptsOf(s, j) == FineBegun(c, FINE_INITIAL, steps, j)
            == FineCalls(c, FINE_INITIAL, steps, j) + FineLost(c, FINE_INITIAL, steps, j) + AwaitCount(s, j)
  {
    AttemptsCountBeginsIff(c, FINE_INITIAL, steps, j);
    BeginsAccountedForFine(c, FINE_INITIAL, steps, j);
    assert AwaitFlags(INITIAL.tasks, j) == [];
  }
}
