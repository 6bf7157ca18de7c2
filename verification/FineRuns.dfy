/**
 Results at the code's own granularity, each from as little as it needs.
 Consistent records, inert orphans and bounded work hold in every run, however
 windows interleave. One success per job needs begin writes that find their rows
 pending (`Races.Guarded`); under the same hypothesis a terminal row is reopened
 exactly by a requeue write that was overtaken by a failure.
 */
module FineRuns {
  import opened Wrappers
  import opened Jobs
  import opened Protocol
  import opened Integrity
  import opened Execution
  import opened NoLoss
  import opened Submission
  import opened Sums
  import opened Work
  import opened Windows
  import opened Races

  // ------------------------------------------------------ consistent records

  /** What a task carries is a consistent record of a running or a successful job. */
  predicate CarriesRecord(pc: Pc) {
    && (pc.AtStart? || pc.Executing? ==> pc.job.status == Running && Consistent(pc.job))
    && (pc.AtCommit? ==> pc.job.status == Success && Consistent(pc.job))
  }

  ghost predicate RecordsOk(f: Fine) {
    && Records(f.s)
    && (forall t :: 0 <= t < |f.s.tasks| ==> CarriesRecord(f.s.tasks[t].pc))
    && (forall t :: t in f.open ==> Consistent(f.open[t]))
  }

  /** The change writes only consistent records, to rows and to task snapshots. */
  predicate SoundChange(d: Change) {
    && (d.write.Some? ==> Consistent(d.write.value))
    && (d.move.Goto? || d.move.Spawn? ==> CarriesRecord(d.move.pc))
  }

  lemma WindowSound(s: State, t: TaskId, row: Option<Job>)
    requires t < |s.tasks| && AtWindow(s.tasks[t].pc) && (row.Some? ==> Consistent(row.value))
    ensures SoundChange(WindowChange(s, t, AfterWindow(s.tasks[t].pc, row)))
  {
  }

  lemma PlainSound(c: Config, s: State, step: Step)
    requires Enabled(c, s, step) && !IsWindow(step)
    requires OfTask(step) ==> CarriesRecord(s.tasks[step.task].pc)
    ensures SoundChange(ChangeOf(c, s, step))
  {
  }

  lemma SoundKeepsRecords(s: State, d: Change)
    requires Records(s) && (forall t :: 0 <= t < |s.tasks| ==> CarriesRecord(s.tasks[t].pc)) && SoundChange(d)
    ensures Records(Perform(s, d))
    ensures forall t :: 0 <= t < |Perform(s, d).tasks| ==> CarriesRecord(Perform(s, d).tasks[t].pc)
  {
  }

  lemma StepKeepsRecords(c: Config, f: Fine, step: FineStep)
    requires RecordsOk(f) && FineEnabled(c, f, step)
    ensures RecordsOk(FineApply(c, f, step))
  {
    var d := FineChange(c, f, step);
    match step {
      case Plain(st) =>
        PlainSound(c, f.s, st);
        SoundKeepsRecords(f.s, d);
      case Get(t) =>
        if !Opens(f, t) {
          WindowSound(f.s, t, RowOf(f.s, t));
          SoundKeepsRecords(f.s, d);
        }
      case Update(t) =>
        WindowSound(f.s, t, Some(f.open[t]));
        SoundKeepsRecords(f.s, d);
    }
  }

  lemma {:induction false} RunKeepsRecords(c: Config, f: Fine, steps: seq<FineStep>)
    requires RecordsOk(f) && FineLegal(c, f, steps)
    ensures RecordsOk(FineExec(c, f, steps))
    decreases |steps|
  {
    if steps != [] {
      StepKeepsRecords(c, f, steps[0]);
      RunKeepsRecords(c, FineApply(c, f, steps[0]), steps[1..]);
    }
  }

  /** Every stored record is consistent in every run, whatever overtakes whatever. */
  lemma RecordsStayConsistentFine(c: Config, steps: seq<FineStep>, j: JobId)
    requires FineLegal(c, FINE_INITIAL, steps) && j in FineExec(c, FINE_INITIAL, steps).s.rows
    ensures Consistent(FineExec(c, FINE_INITIAL, steps).s.rows[j])
  {
    RunKeepsRecords(c, FINE_INITIAL, steps);
  }

  // ----------------------------------------------------------- inert orphans

  lemma WindowSparesOrphan(c: Config, s: State, t: TaskId, row: Option<Job>, j: JobId)
    requires Intact(c, s) && Orphaned(s, j) && t < |s.tasks| && AtWindow(s.tasks[t].pc)
    requires row.Some? ==> row.value.id == s.tasks[t].msg.jobId
    ensures var s' := Perform(s, WindowChange(s, t, AfterWindow(s.tasks[t].pc, row)));
            Orphaned(s', j) && s'.rows[j] == s.rows[j]
  {
    assert TaskOk(c, s, s.tasks[t]);
  }

  lemma FineOrphanStays(c: Config, f: Fine, step: FineStep, j: JobId)
    requires FineIntact(c, f) && Orphaned(f.s, j) && FineEnabled(c, f, step)
    ensures Orphaned(FineApply(c, f, step).s, j) && FineApply(c, f, step).s.rows[j] == f.s.rows[j]
  {
    match step
    case Plain(st) => OrphanStays(c, f.s, st, j);
    case Get(t) => if !Opens(f, t) { WindowSparesOrphan(c, f.s, t, RowOf(f.s, t), j); }
    case Update(t) =>
      assert OpenOk(f, t, f.open[t]);
      WindowSparesOrphan(c, f.s, t, Some(f.open[t]), j);
  }

  /** A row whose submission ended without a pointer is never touched again, whatever overtakes whatever. */
  lemma {:induction false} OrphanIsInertFine(c: Config, f: Fine, steps: seq<FineStep>, j: JobId)
    requires FineIntact(c, f) && Orphaned(f.s, j) && FineLegal(c, f, steps)
    ensures Orphaned(FineExec(c, f, steps).s, j) && FineExec(c, f, steps).s.rows[j] == f.s.rows[j]
    decreases |steps|
  {
    if steps != [] {
      FineOrphanStays(c, f, steps[0], j);
      FineStepKeepsIntact(c, f, steps[0]);
      OrphanIsInertFine(c, FineApply(c, f, steps[0]), steps[1..], j);
    }
  }

  // ------------------------------------------------------------ bounded work

  /** The begin write of a task of `j`. */
  predicate WritesBegin(f: Fine, step: FineStep, j: JobId) {
    step.Update? && step.task < |f.s.tasks| && f.s.tasks[step.task].pc.AtBegin? && f.s.tasks[step.task].msg.jobId == j
  }

  predicate CallsPipeline(f: Fine, step: FineStep, j: JobId) {
    step.Plain? && StartsPipeline(f.s, step.step, j)
  }

  function FineIncome(f: Fine, step: FineStep, j: JobId): nat {
    if step.Plain? then Income(f.s, step.step, j) else 0
  }

  function BeginsOf(f: Fine, step: FineStep, j: JobId): nat {
    if WritesBegin(f, step, j) then 1 else 0
  }

  function CallsOf(f: Fine, step: FineStep, j: JobId): nat {
    if CallsPipeline(f, step, j) then 1 else 0
  }

  function FineBegun(c: Config, f: Fine, steps: seq<FineStep>, j: JobId): nat
    requires FineLegal(c, f, steps)
    decreases |steps|
  {
    if steps == [] then 0 else BeginsOf(f, steps[0], j) + FineBegun(c, FineApply(c, f, steps[0]), steps[1..], j)
  }

  function FineCalls(c: Config, f: Fine, steps: seq<FineStep>, j: JobId): nat
    requires FineLegal(c, f, steps)
    decreases |steps|
  {
    if steps == [] then 0 else CallsOf(f, steps[0], j) + FineCalls(c, FineApply(c, f, steps[0]), steps[1..], j)
  }

  /** First publishes and stale counts over the run. */
  function FineRunIncome(c: Config, f: Fine, steps: seq<FineStep>, j: JobId): nat
    requires FineLegal(c, f, steps)
    decreases |steps|
  {
    if steps == [] then 0 else FineIncome(f, steps[0], j) + FineRunIncome(c, FineApply(c, f, steps[0]), steps[1..], j)
  }

  /** A window's end pays for its begin write from the budget of its own program counter. */
  lemma WindowPays(c: Config, s: State, t: TaskId, row: Option<Job>, j: JobId)
    requires t < |s.tasks| && AtWindow(s.tasks[t].pc) && (s.tasks[t].pc.AtRequeue? ==> row.Some?)
    ensures var after := AfterWindow(s.tasks[t].pc, row);
            Potential(c, Perform(s, WindowChange(s, t, after)), j)
            + (if s.tasks[t].pc.AtBegin? && after.0.Some? && s.tasks[t].msg.jobId == j then 1 else 0)
              <= Potential(c, s, j)
  {
    GotoPays(c, s, WindowChange(s, t, AfterWindow(s.tasks[t].pc, row)), j);
  }

  lemma FineStepPays(c: Config, f: Fine, step: FineStep, j: JobId)
    requires FineIntact(c, f) && FineEnabled(c, f, step)
    ensures Covered(Potential(c, FineApply(c, f, step).s, j) + BeginsOf(f, step, j), Potential(c, f.s, j),
                    FineIncome(f, step, j), JobBudget(c))
  {
    match step
    case Plain(st) => PlainPays(c, f, st, j);
    case Get(t) => GetPays(c, f, t, j);
    case Update(t) => UpdatePays(c, f, t, j);
  }

  lemma PlainPays(c: Config, f: Fine, st: Step, j: JobId)
    requires FineIntact(c, f) && FineEnabled(c, f, Plain(st))
    ensures Covered(Potential(c, FineApply(c, f, Plain(st)).s, j), Potential(c, f.s, j),
                    Income(f.s, st, j), JobBudget(c))
  {
    StepPays(c, f.s, st, j);
  }

  lemma GetPays(c: Config, f: Fine, t: TaskId, j: JobId)
    requires FineIntact(c, f) && FineEnabled(c, f, Get(t))
    ensures Potential(c, FineApply(c, f, Get(t)).s, j) <= Potential(c, f.s, j)
  {
    TaskHasRow(c, f.s, t);
    if !Opens(f, t) { WindowPays(c, f.s, t, RowOf(f.s, t), j); }
  }

  lemma UpdatePays(c: Config, f: Fine, t: TaskId, j: JobId)
    requires FineIntact(c, f) && FineEnabled(c, f, Update(t))
    ensures Potential(c, FineApply(c, f, Update(t)).s, j) + BeginsOf(f, Update(t), j) <= Potential(c, f.s, j)
  {
    assert OpenOk(f, t, f.open[t]);
    WindowPays(c, f.s, t, Some(f.open[t]), j);
  }

  lemma {:induction false} FirstFineStepPays(c: Config, f: Fine, steps: seq<FineStep>, j: JobId)
    requires steps != [] && FineLegal(c, f, steps)
    requires var f1 := FineApply(c, f, steps[0]);
             && Covered(Potential(c, f1.s, j) + BeginsOf(f, steps[0], j), Potential(c, f.s, j),
                        FineIncome(f, steps[0], j), JobBudget(c))
             && Covered(FineBegun(c, f1, steps[1..], j), Potential(c, f1.s, j),
                        FineRunIncome(c, f1, steps[1..], j), JobBudget(c))
    ensures Covered(FineBegun(c, f, steps, j), Potential(c, f.s, j), FineRunIncome(c, f, steps, j), JobBudget(c))
  {
    var f1 := FineApply(c, f, steps[0]);
    assert FineBegun(c, f, steps, j) == BeginsOf(f, steps[0], j) + FineBegun(c, f1, steps[1..], j);
    assert FineRunIncome(c, f, steps, j) == FineIncome(f, steps[0], j) + FineRunIncome(c, f1, steps[1..], j);
    Carry(BeginsOf(f, steps[0], j), FineBegun(c, f1, steps[1..], j), Potential(c, f.s, j), Potential(c, f1.s, j),
          FineIncome(f, steps[0], j), FineRunIncome(c, f1, steps[1..], j), JobBudget(c));
  }

  lemma {:induction false} FineRunPays(c: Config, f: Fine, steps: seq<FineStep>, j: JobId)
    requires FineIntact(c, f) && FineLegal(c, f, steps)
    ensures Covered(FineBegun(c, f, steps, j), Potential(c, f.s, j), FineRunIncome(c, f, steps, j), JobBudget(c))
    decreases |steps|
  {
    if steps == [] {
      assert FineBegun(c, f, steps, j) == 0;
    } else {
      FineStepKeepsIntact(c, f, steps[0]);
      FineRunPays(c, FineApply(c, f, steps[0]), steps[1..], j);
      FineStepPays(c, f, steps[0], j);
      FirstFineStepPays(c, f, steps, j);
    }
  }

  // Pipeline calls: each follows a begin write of its own.

  function AwaitFlags(tasks: seq<Task>, j: JobId): (ws: seq<nat>)
    ensures |ws| == |tasks|
  {
    seq(|tasks|, t requires 0 <= t < |tasks| => if Awaits(tasks[t], j) then 1 else 0)
  }

  /** Tasks of `j` between their begin write and their pipeline call. */
  function AwaitCount(s: State, j: JobId): nat {
    Sum(AwaitFlags(s.tasks, j))
  }

  lemma AwaitCountAfter(s: State, d: Change, j: JobId)
    requires d.move.Goto? ==> d.move.task < |s.tasks|
    requires d.move.Spawn? ==> d.move.entry < |s.stream| && !d.move.pc.AtStart?
    ensures if d.move.Goto? then
              AwaitCount(Perform(s, d), j) + (if Awaits(s.tasks[d.move.task], j) then 1 else 0)
              == AwaitCount(s, j) + (if Awaits(s.tasks[d.move.task].(pc := d.move.pc), j) then 1 else 0)
            else AwaitCount(Perform(s, d), j) == AwaitCount(s, j)
  {
    var ws, s' := AwaitFlags(s.tasks, j), Perform(s, d);
    match d.move
    case Stay => assert s'.tasks == s.tasks;
    case Goto(t, pc) =>
      var w := if Awaits(s.tasks[t].(pc := pc), j) then 1 else 0;
      assert AwaitFlags(s'.tasks, j) == ws[t := w];
      SumUpdate(ws, t, w);
    case Spawn(_, _, _) =>
      assert AwaitFlags(s'.tasks, j) == ws + [0];
      SumAppend(ws, 0);
  }

  predicate LosesItsBegin(f: Fine, step: FineStep, j: JobId) {
    step.Plain? && LosesBegin(f.s, step.step, j)
  }

  function LostOf(f: Fine, step: FineStep, j: JobId): nat {
    if LosesItsBegin(f, step, j) then 1 else 0
  }

  /** Begin writes of `j` that landed without the pipeline being called. */
  function FineLost(c: Config, f: Fine, steps: seq<FineStep>, j: JobId): nat
    requires FineLegal(c, f, steps)
    decreases |steps|
  {
    if steps == [] then 0 else LostOf(f, steps[0], j) + FineLost(c, FineApply(c, f, steps[0]), steps[1..], j)
  }

  /** How the step's own task moves in and out of the gap. */
  lemma GapMoves(c: Config, f: Fine, step: FineStep, j: JobId)
    requires FineIntact(c, f) && FineEnabled(c, f, step)
    ensures var d := FineChange(c, f, step);
            && FineApply(c, f, step).s == Perform(f.s, d)
            && (d.move.Goto? ==> d.move.task < |f.s.tasks|)
            && (d.move.Spawn? ==> d.move.entry < |f.s.stream| && !d.move.pc.AtStart?)
            && (d.move.Goto? && Awaits(f.s.tasks[d.move.task].(pc := d.move.pc), j) <==> WritesBegin(f, step, j))
            && (d.move.Goto? && Awaits(f.s.tasks[d.move.task], j) <==>
                 CallsPipeline(f, step, j) || LosesItsBegin(f, step, j))
  {
    match step
    case Plain(st) => PlainGap(c, f.s, st, j);
    case Get(t) => if !Opens(f, t) { RefusedWritesNothing(f, t); }
    case Update(t) => assert OpenOk(f, t, f.open[t]);
  }

  lemma PlainGap(c: Config, s: State, step: Step, j: JobId)
    requires Intact(c, s) && Enabled(c, s, step) && !IsWindow(step)
    ensures var d := ChangeOf(c, s, step);
            && (d.move.Goto? ==> d.move.task < |s.tasks| && !d.move.pc.AtStart?)
            && (d.move.Spawn? ==> d.move.entry < |s.stream| && !d.move.pc.AtStart?)
            && (d.move.Goto? && Awaits(s.tasks[d.move.task], j) <==>
                 StartsPipeline(s, step, j) || LosesBegin(s, step, j))
  {
  }

  /** Every begin write is followed by its pipeline call, is lost, or still waits, in every run. */
  lemma {:induction false} BeginsAccountedForFine(c: Config, f: Fine, steps: seq<FineStep>, j: JobId)
    requires FineIntact(c, f) && FineLegal(c, f, steps)
    ensures AwaitCount(f.s, j) + FineBegun(c, f, steps, j)
            == FineCalls(c, f, steps, j) + FineLost(c, f, steps, j) + AwaitCount(FineExec(c, f, steps).s, j)
    decreases |steps|
  {
    if steps != [] {
      GapMoves(c, f, steps[0], j);
      AwaitCountAfter(f.s, FineChange(c, f, steps[0]), j);
      FineStepKeepsIntact(c, f, steps[0]);
      BeginsAccountedForFine(c, FineApply(c, f, steps[0]), steps[1..], j);
    }
  }

  /** The bound on begin writes and pipeline calls holds in every run, whatever overtakes whatever. */
  lemma WorkIsBoundedFine(c: Config, steps: seq<FineStep>, j: JobId)
    requires FineLegal(c, FINE_INITIAL, steps)
    ensures FineCalls(c, FINE_INITIAL, steps, j) <= FineBegun(c, FINE_INITIAL, steps, j)
            <= FineRunIncome(c, FINE_INITIAL, steps, j) * PowerSum(DeliveryLimit(c), LastAttempt(c))
  {
    assert EntryBudgets(c, INITIAL, j) == [] && TaskBudgets(c, INITIAL, j) == [] && AwaitFlags(INITIAL.tasks, j) == [];
    FineRunPays(c, FINE_INITIAL, steps, j);
    BeginsAccountedForFine(c, FINE_INITIAL, steps, j);
  }

  // -------------------------------------------------------- a single success

  predicate SavesSuccessOf(f: Fine, step: FineStep, j: JobId) {
    step.Plain? && WritesSuccess(f.s, step.step, j)
  }

  function SavesOf(f: Fine, step: FineStep, j: JobId): nat {
    if SavesSuccessOf(f, step, j) then 1 else 0
  }

  function FineSuccessWrites(c: Config, f: Fine, steps: seq<FineStep>, j: JobId): nat
    requires FineLegal(c, f, steps)
    decreases |steps|
  {
    if steps == [] then 0
    else SavesOf(f, steps[0], j) + FineSuccessWrites(c, FineApply(c, f, steps[0]), steps[1..], j)
  }

  /** The job is over: its row is terminal and no execution of it is left. */
  predicate Closed(s: State, j: JobId) {
    IsTerminalRow(s, j) && forall t :: 0 <= t < |s.tasks| ==> !HoldsJob(s.tasks[t], j)
  }

  lemma ClosedStays(c: Config, s: State, d: Change, j: JobId)
    requires Loose(c, s) && ChangeOk(c, s, d) && Tame(s, d) && Closed(s, j)
    ensures Closed(Perform(s, d), j)
  {
  }

  lemma CommitCloses(c: Config, f: Fine, step: FineStep, j: JobId)
    requires FineInv(c, f) && FineEnabled(c, f, step) && SavesSuccessOf(f, step, j)
    ensures !Closed(f.s, j) && Closed(FineApply(c, f, step).s, j)
  {
    var t := step.step.task;
    assert HoldsJob(f.s.tasks[t], j);
    TaskHasRow(c, f.s, t);
    assert TaskOk(c, f.s, f.s.tasks[t]);
  }

  lemma {:induction false} SuccessesFromHere(c: Config, f: Fine, steps: seq<FineStep>, j: JobId)
    requires FineInv(c, f) && FineLegal(c, f, steps) && GuardedRun(c, f, steps)
    ensures FineSuccessWrites(c, f, steps, j) <= if Closed(f.s, j) then 0 else 1
    decreases |steps|
  {
    if steps != [] {
      if SavesSuccessOf(f, steps[0], j) {
        CommitCloses(c, f, steps[0], j);
      } else if Closed(f.s, j) {
        FineStepIsChange(c, f, steps[0]);
        ClosedStays(c, f.s, FineChange(c, f, steps[0]), j);
      }
      StepKeepsFineInv(c, f, steps[0]);
      SuccessesFromHere(c, FineApply(c, f, steps[0]), steps[1..], j);
    }
  }

  /** Success is written at most once per job in every run whose begin writes find their rows pending. */
  lemma SuccessWrittenOnceFine(c: Config, steps: seq<FineStep>, j: JobId)
    requires FineLegal(c, FINE_INITIAL, steps) && GuardedRun(c, FINE_INITIAL, steps)
    ensures FineSuccessWrites(c, FINE_INITIAL, steps, j) <= 1
  {
    SuccessesFromHere(c, FINE_INITIAL, steps, j);
  }

  // ---------------------------------------------------------- terminal rows

  /** The write of a begin or requeue window of `j`. */
  predicate WritesLive(f: Fine, step: FineStep, j: JobId) {
    && step.Update? && step.task < |f.s.tasks| && f.s.tasks[step.task].msg.jobId == j
    && (f.s.tasks[step.task].pc.AtBegin? || f.s.tasks[step.task].pc.AtRequeue?)
  }

  /** A plain step writes a new row or a success. */
  lemma PlainWrites(c: Config, s: State, step: Step)
    requires Enabled(c, s, step) && !IsWindow(step) && (OfTask(step) ==> CarriesRecord(s.tasks[step.task].pc))
    ensures var d := ChangeOf(c, s, step);
            d.write.Some? ==> d.write.value.id !in s.rows || d.write.value.status == Success
  {
  }

  lemma UpdateWrites(c: Config, f: Fine, t: TaskId)
    requires FineIntact(c, f) && FineEnabled(c, f, Update(t))
    ensures var row := AfterWindow(f.s.tasks[t].pc, Some(f.open[t])).0;
            && row.Some? && row.value.id == f.s.tasks[t].msg.jobId
            && (row.value.IsTerminal() <==> f.s.tasks[t].pc.AtFail?)
  {
    assert OpenOk(f, t, f.open[t]);
  }

  lemma RefusedWritesNothing(f: Fine, t: TaskId)
    requires t < |f.s.tasks| && AtWindow(f.s.tasks[t].pc) && !Opens(f, t)
    ensures AfterWindow(f.s.tasks[t].pc, RowOf(f.s, t)).0.None?
  {
  }

  /** A terminal row is reopened by a step if and only if that step is the write of a begin or requeue window on it. */
  lemma TerminalReopensIff(c: Config, f: Fine, step: FineStep, j: JobId)
    requires FineIntact(c, f) && RecordsOk(f) && FineEnabled(c, f, step) && IsTerminalRow(f.s, j)
    ensures !IsTerminalRow(FineApply(c, f, step).s, j) <==> WritesLive(f, step, j)
  {
    match step
    case Plain(st) => PlainWrites(c, f.s, st);
    case Get(t) => if !Opens(f, t) { RefusedWritesNothing(f, t); }
    case Update(t) => UpdateWrites(c, f, t);
  }

  /** The row is terminal from here to the end of the run. */
  predicate TerminalThroughout(c: Config, f: Fine, steps: seq<FineStep>, j: JobId)
    requires FineLegal(c, f, steps)
    decreases |steps|
  {
    IsTerminalRow(f.s, j) && (steps == [] || TerminalThroughout(c, FineApply(c, f, steps[0]), steps[1..], j))
  }

  /** No begin or requeue write of the run finds the row terminal. */
  predicate NoneOvertaken(c: Config, f: Fine, steps: seq<FineStep>, j: JobId)
    requires FineLegal(c, f, steps)
    decreases |steps|
  {
    || steps == []
    || (!(WritesLive(f, steps[0], j) && IsTerminalRow(f.s, j))
      && NoneOvertaken(c, FineApply(c, f, steps[0]), steps[1..], j))
  }

  /** In every run, terminal stays terminal if and only if no begin or requeue write finds the row so. */
  lemma {:induction false} TerminalStaysTerminalFine(c: Config, f: Fine, steps: seq<FineStep>, j: JobId)
    requires FineIntact(c, f) && RecordsOk(f) && FineLegal(c, f, steps) && IsTerminalRow(f.s, j)
    ensures TerminalThroughout(c, f, steps, j) <==> NoneOvertaken(c, f, steps, j)
    decreases |steps|
  {
    if steps != [] {
      TerminalReopensIff(c, f, steps[0], j);
      FineStepKeepsIntact(c, f, steps[0]);
      StepKeepsRecords(c, f, steps[0]);
      if !WritesLive(f, steps[0], j) {
        TerminalStaysTerminalFine(c, FineApply(c, f, steps[0]), steps[1..], j);
      }
    }
  }

  /** With guarded begin writes, what reopens a row is a stale requeue, and the row is failed and dead-lettered. */
  lemma GuardedReopensOnlyBuried(c: Config, f: Fine, step: FineStep, j: JobId)
    requires FineInv(c, f) && RecordsOk(f) && FineEnabled(c, f, step) && Guarded(f, step) && IsTerminalRow(f.s, j)
    ensures !IsTerminalRow(FineApply(c, f, step).s, j) <==> WritesLive(f, step, j)
    ensures WritesLive(f, step, j) ==>
              f.s.tasks[step.task].pc.AtRequeue? && f.s.rows[j].status == Failed && DeadLettered(f.s, j)
  {
    TerminalReopensIff(c, f, step, j);
    if WritesLive(f, step, j) {
      assert OpenOk(f, step.task, f.open[step.task]);
    }
  }

  // -------------------------------------------------- success, counted exactly

  /** The step writes the row of `j` while it is successful. */
  predicate OverwritesSuccess(f: Fine, step: FineStep, j: JobId) {
    && j in f.s.rows && f.s.rows[j].status == Success
    && (SavesSuccessOf(f, step, j) || (step.Update? && step.task < |f.s.tasks| && f.s.tasks[step.task].msg.jobId == j))
  }

  /** A step leaves the row saying how often success was written if and only if it does not overwrite a success. */
  lemma SuccessCountedStep(c: Config, f: Fine, step: FineStep, j: JobId)
    requires FineIntact(c, f) && RecordsOk(f) && FineEnabled(c, f, step)
    ensures SuccessOf(FineApply(c, f, step).s, j) == SuccessOf(f.s, j) + SavesOf(f, step, j) <==>
            !OverwritesSuccess(f, step, j)
  {
    match step
    case Plain(st) => PlainSuccess(c, f, st, j);
    case Get(t) => if !Opens(f, t) { RefusedWritesNothing(f, t); }
    case Update(t) =>
      UpdateWrites(c, f, t);
      UpdateIsNoSuccess(c, f, t);
      TaskHasRow(c, f.s, t);
  }

  lemma UpdateIsNoSuccess(c: Config, f: Fine, t: TaskId)
    requires FineIntact(c, f) && FineEnabled(c, f, Update(t))
    ensures AfterWindow(f.s.tasks[t].pc, Some(f.open[t])).0.value.status != Success
  {
    assert OpenOk(f, t, f.open[t]);
  }

  lemma PlainSuccess(c: Config, f: Fine, step: Step, j: JobId)
    requires FineIntact(c, f) && RecordsOk(f) && FineEnabled(c, f, Plain(step))
    ensures SuccessOf(Apply(c, f.s, step), j) == SuccessOf(f.s, j) + SavesOf(f, Plain(step), j)
            <==> !OverwritesSuccess(f, Plain(step), j)
  {
    if step.Commit? { CommitSuccess(c, f, step.task, step.write, j); } else { OthersWriteNoSuccess(c, f.s, step, j); }
  }

  lemma CommitSuccess(c: Config, f: Fine, t: TaskId, outcome: WriteOutcome, j: JobId)
    requires FineIntact(c, f) && RecordsOk(f) && t < |f.s.tasks| && f.s.tasks[t].pc.AtCommit?
    ensures var step := Plain(Commit(t, outcome));
            SuccessOf(Perform(f.s, CommitChange(f.s, t, outcome)), j) == SuccessOf(f.s, j) + SavesOf(f, step, j)
            <==> !OverwritesSuccess(f, step, j)
  {
    TaskHasRow(c, f.s, t);
    assert TaskOk(c, f.s, f.s.tasks[t]);
  }

  lemma OthersWriteNoSuccess(c: Config, s: State, step: Step, j: JobId)
    requires Enabled(c, s, step) && !IsWindow(step) && !step.Commit?
    ensures SuccessOf(Apply(c, s, step), j) == SuccessOf(s, j)
  {
  }

  /** At every point of the run, the row says SUCCESS exactly as often as success was written since its start. */
  predicate SuccessCounted(c: Config, f: Fine, steps: seq<FineStep>, j: JobId)
    requires FineLegal(c, f, steps)
    decreases |steps|
  {
    || steps == []
    || (SuccessOf(FineApply(c, f, steps[0]).s, j) == SuccessOf(f.s, j) + SavesOf(f, steps[0], j)
        && SuccessCounted(c, FineApply(c, f, steps[0]), steps[1..], j))
  }

  predicate NoSuccessOverwritten(c: Config, f: Fine, steps: seq<FineStep>, j: JobId)
    requires FineLegal(c, f, steps)
    decreases |steps|
  {
    || steps == []
    || (!OverwritesSuccess(f, steps[0], j) && NoSuccessOverwritten(c, FineApply(c, f, steps[0]), steps[1..], j))
  }

  /** In every run, success is written once and stays, if and only if no write finds the row successful. */
  lemma {:induction false} SuccessCountedIff(c: Config, f: Fine, steps: seq<FineStep>, j: JobId)
    requires FineIntact(c, f) && RecordsOk(f) && FineLegal(c, f, steps)
    ensures SuccessCounted(c, f, steps, j) <==> NoSuccessOverwritten(c, f, steps, j)
    ensures SuccessCounted(c, f, steps, j) ==>
              SuccessOf(f.s, j) + FineSuccessWrites(c, f, steps, j) == SuccessOf(FineExec(c, f, steps).s, j) <= 1
    decreases |steps|
  {
    if steps != [] {
      SuccessCountedStep(c, f, steps[0], j);
      FineStepKeepsIntact(c, f, steps[0]);
      StepKeepsRecords(c, f, steps[0]);
      SuccessCountedIff(c, FineApply(c, f, steps[0]), steps[1..], j);
    }
  }
}
