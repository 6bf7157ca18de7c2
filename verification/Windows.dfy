/**
 The machine with the row windows taken apart, as the code has them: the begin,
 requeue and fail paths each read the row in one call and write it back, blindly
 and as a whole, in a later one (services/processor.py, broker/consumer.py,
 persistence/repository.py).

 A run in which nobody else writes a row while a window on it is open is, step
 for step, a run of `Protocol`. `Races` asks for much less.
 */
module Windows {
  import opened Wrappers
  import opened Jobs
  import opened Protocol
  import opened Integrity

  /** A protocol state, and for each open window the row its task read. */
  datatype Fine = Fine(s: State, open: map<TaskId, Job>)

  const FINE_INITIAL := Fine(INITIAL, map[])

  datatype FineStep =
    | Plain(step: Step)         // any step but a window
    | Get(task: TaskId)         // the read of a window, and the transition on the detached copy
    | Update(task: TaskId)      // the write of that copy

  predicate IsWindow(step: Step) {
    step.Begin? || step.RequeueRow? || step.FailRow?
  }

  predicate AtWindow(pc: Pc) {
    pc.AtBegin? || pc.AtRequeue? || pc.AtFail?
  }

  /** The window a task stands at, as a step of the coarse machine. */
  function WindowStep(s: State, t: TaskId): Step
    requires t < |s.tasks|
  {
    match s.tasks[t].pc
    case AtBegin => Begin(t)
    case AtRequeue => RequeueRow(t)
    case _ => FailRow(t)
  }

  /** What the window makes of a row that was read: the row to write, if any, and where the task goes. */
  function AfterWindow(pc: Pc, row: Option<Job>): (Option<Job>, Pc)
    requires AtWindow(pc)
  {
    match pc
    case AtBegin => AfterBegin(row)
    case AtRequeue => AfterRequeue(row)
    case AtFail(cause) => AfterFail(row, cause)
  }

  /** The task whose control the step moves. */
  function Actor(step: FineStep): Option<TaskId> {
    match step
    case Plain(st) => if OfTask(st) then Some(st.task) else None
    case Get(t) => Some(t)
    case Update(t) => Some(t)
  }

  predicate FineEnabled(c: Config, f: Fine, step: FineStep) {
    match step
    case Plain(st) => Enabled(c, f.s, st) && !IsWindow(st)
    case Get(t) => t < |f.s.tasks| && AtWindow(f.s.tasks[t].pc) && t !in f.open
    case Update(t) => t < |f.s.tasks| && AtWindow(f.s.tasks[t].pc) && t in f.open
  }

  /** The read finds a row the transition accepts, so a write is to follow. */
  predicate Opens(f: Fine, t: TaskId)
    requires t < |f.s.tasks| && AtWindow(f.s.tasks[t].pc)
  {
    RowOf(f.s, t).Some? && AfterWindow(f.s.tasks[t].pc, RowOf(f.s, t)).0.Some?
  }

  function FineApply(c: Config, f: Fine, step: FineStep): Fine
    requires FineEnabled(c, f, step)
  {
    match step
    case Plain(st) => Fine(Apply(c, f.s, st), if OfTask(st) then f.open - {st.task} else f.open)
    case Get(t) =>
      if Opens(f, t) then f.(open := f.open[t := RowOf(f.s, t).value])
      else f.(s := Perform(f.s, WindowChange(f.s, t, AfterWindow(f.s.tasks[t].pc, RowOf(f.s, t)))))
    case Update(t) =>
      Fine(Perform(f.s, WindowChange(f.s, t, AfterWindow(f.s.tasks[t].pc, Some(f.open[t])))), f.open - {t})
  }

  predicate FineLegal(c: Config, f: Fine, steps: seq<FineStep>)
    decreases |steps|
  {
    steps == [] || (FineEnabled(c, f, steps[0]) && FineLegal(c, FineApply(c, f, steps[0]), steps[1..]))
  }

  function FineExec(c: Config, f: Fine, steps: seq<FineStep>): Fine
    requires FineLegal(c, f, steps)
    decreases |steps|
  {
    if steps == [] then f else FineExec(c, FineApply(c, f, steps[0]), steps[1..])
  }

  // ---------------------------------------------------------- the hypothesis

  /** The step leaves alone every row some other task has a window open on. */
  ghost predicate Undisturbed(c: Config, f: Fine, step: FineStep)
    requires FineEnabled(c, f, step)
  {
    forall u :: u in f.open && Actor(step) != Some(u) && u < |f.s.tasks| ==>
      RowOf(FineApply(c, f, step).s, u) == RowOf(f.s, u)
  }

  ghost predicate UndisturbedRun(c: Config, f: Fine, steps: seq<FineStep>)
    requires FineLegal(c, f, steps)
    decreases |steps|
  {
    steps == [] || (Undisturbed(c, f, steps[0]) && UndisturbedRun(c, FineApply(c, f, steps[0]), steps[1..]))
  }

  // -------------------------------------------------------------- refinement

  /** Every open window's copy is still the stored row, and a write is to follow from it. */
  ghost predicate Fresh(f: Fine) {
    forall u :: u in f.open ==>
      && u < |f.s.tasks| && AtWindow(f.s.tasks[u].pc)
      && RowOf(f.s, u) == Some(f.open[u])
      && AfterWindow(f.s.tasks[u].pc, RowOf(f.s, u)).0.Some?
  }

  /** The coarse steps one fine step stands for: none for a read that opens a window. */
  function Lift(c: Config, f: Fine, step: FineStep): seq<Step>
    requires FineEnabled(c, f, step)
  {
    match step
    case Plain(st) => [st]
    case Get(t) => if Opens(f, t) then [] else [WindowStep(f.s, t)]
    case Update(t) => [WindowStep(f.s, t)]
  }

  function LiftRun(c: Config, f: Fine, steps: seq<FineStep>): seq<Step>
    requires FineLegal(c, f, steps)
    decreases |steps|
  {
    if steps == [] then [] else Lift(c, f, steps[0]) + LiftRun(c, FineApply(c, f, steps[0]), steps[1..])
  }

  /** One fine step is one coarse step, or none. */
  lemma StepRefines(c: Config, f: Fine, step: FineStep)
    requires Fresh(f) && FineEnabled(c, f, step)
    ensures Legal(c, f.s, Lift(c, f, step))
    ensures Exec(c, f.s, Lift(c, f, step)) == FineApply(c, f, step).s
  {
    var steps := Lift(c, f, step);
    if steps != [] {
      assert Enabled(c, f.s, steps[0]) && Apply(c, f.s, steps[0]) == FineApply(c, f, step).s;
      assert steps[1..] == [];
    }
  }

  lemma OthersStand(c: Config, f: Fine, step: FineStep, u: TaskId)
    requires FineEnabled(c, f, step) && Actor(step) != Some(u) && u < |f.s.tasks|
    ensures u < |FineApply(c, f, step).s.tasks| && FineApply(c, f, step).s.tasks[u] == f.s.tasks[u]
    ensures u in f.open ==> u in FineApply(c, f, step).open && FineApply(c, f, step).open[u] == f.open[u]
  {
    if step.Plain? { MovesOwnTask(c, f.s, step.step); }
  }

  lemma StepKeepsFresh(c: Config, f: Fine, step: FineStep)
    requires Fresh(f) && FineEnabled(c, f, step) && Undisturbed(c, f, step)
    ensures Fresh(FineApply(c, f, step))
  {
    var f' := FineApply(c, f, step);
    forall u | u in f'.open
      ensures u < |f'.s.tasks| && AtWindow(f'.s.tasks[u].pc)
      ensures RowOf(f'.s, u) == Some(f'.open[u]) && AfterWindow(f'.s.tasks[u].pc, RowOf(f'.s, u)).0.Some?
    {
      if Actor(step) != Some(u) { OthersStand(c, f, step, u); }
    }
  }

  lemma {:induction false} LegalConcat(c: Config, s: State, a: seq<Step>, b: seq<Step>)
    requires Legal(c, s, a) && Legal(c, Exec(c, s, a), b)
    ensures Legal(c, s, a + b) && Exec(c, s, a + b) == Exec(c, Exec(c, s, a), b)
    decreases |a|
  {
    if a == [] {
      assert a + b == b;
    } else {
      assert (a + b)[1..] == a[1..] + b;
      LegalConcat(c, Apply(c, s, a[0]), a[1..], b);
    }
  }

  /** The refinement: an undisturbed fine run of any length is a run of the coarse machine. */
  lemma {:induction false} FineRefinesCoarse(c: Config, f: Fine, steps: seq<FineStep>)
    requires Fresh(f) && FineLegal(c, f, steps) && UndisturbedRun(c, f, steps)
    ensures Legal(c, f.s, LiftRun(c, f, steps))
    ensures Exec(c, f.s, LiftRun(c, f, steps)) == FineExec(c, f, steps).s
    decreases |steps|
  {
    if steps != [] {
      var f' := FineApply(c, f, steps[0]);
      StepRefines(c, f, steps[0]);
      StepKeepsFresh(c, f, steps[0]);
      FineRefinesCoarse(c, f', steps[1..]);
      LegalConcat(c, f.s, Lift(c, f, steps[0]), LiftRun(c, f', steps[1..]));
    }
  }

  // ------------------------------------- what needs no hypothesis: integrity

  predicate OpenOk(f: Fine, t: TaskId, read: Job) {
    && t < |f.s.tasks| && AtWindow(f.s.tasks[t].pc)
    && f.s.tasks[t].msg.jobId in f.s.rows && SameIdentity(f.s.rows[f.s.tasks[t].msg.jobId], read)
    && AfterWindow(f.s.tasks[t].pc, Some(read)).0.Some?
  }

  ghost predicate FineIntact(c: Config, f: Fine) {
    Intact(c, f.s) && forall t :: t in f.open ==> OpenOk(f, t, f.open[t])
  }

  lemma WindowChangeOk(c: Config, s: State, t: TaskId, row: Option<Job>)
    requires Intact(c, s) && t < |s.tasks| && AtWindow(s.tasks[t].pc)
    requires row.Some? ==> s.tasks[t].msg.jobId in s.rows && SameIdentity(s.rows[s.tasks[t].msg.jobId], row.value)
    ensures ChangeOk(c, s, WindowChange(s, t, AfterWindow(s.tasks[t].pc, row)))
  {
    assert TaskOk(c, s, s.tasks[t]) && PointerOk(c, s.rows, s.tasks[t].msg);
  }

  lemma FineStepGrows(c: Config, f: Fine, step: FineStep)
    requires FineIntact(c, f) && FineEnabled(c, f, step)
    ensures Intact(c, FineApply(c, f, step).s) && Grows(f.s, FineApply(c, f, step).s)
  {
    match step
    case Plain(st) => StepKeepsIntegrity(c, f.s, st);
    case Get(t) =>
      if !Opens(f, t) {
        var d := WindowChange(f.s, t, AfterWindow(f.s.tasks[t].pc, RowOf(f.s, t)));
        WindowChangeOk(c, f.s, t, RowOf(f.s, t));
        ChangeKeepsIntegrity(c, f.s, d);
        ChangeGrows(c, f.s, d);
      }
    case Update(t) =>
      var d := WindowChange(f.s, t, AfterWindow(f.s.tasks[t].pc, Some(f.open[t])));
      assert OpenOk(f, t, f.open[t]);
      WindowChangeOk(c, f.s, t, Some(f.open[t]));
      ChangeKeepsIntegrity(c, f.s, d);
      ChangeGrows(c, f.s, d);
  }

  /** Rows keep their identity and pointers keep resolving even when windows interleave. */
  lemma FineStepKeepsIntact(c: Config, f: Fine, step: FineStep)
    requires FineIntact(c, f) && FineEnabled(c, f, step)
    ensures FineIntact(c, FineApply(c, f, step))
  {
    var f' := FineApply(c, f, step);
    FineStepGrows(c, f, step);
    forall t | t in f'.open ensures OpenOk(f', t, f'.open[t]) {
      if Actor(step) != Some(t) {
        assert OpenOk(f, t, f.open[t]);
        OthersStand(c, f, step, t);
      } else {
        assert TaskOk(c, f.s, f.s.tasks[t]);
      }
    }
  }

  lemma {:induction false} FineRunKeepsIntact(c: Config, f: Fine, steps: seq<FineStep>)
    requires FineIntact(c, f) && FineLegal(c, f, steps)
    ensures FineIntact(c, FineExec(c, f, steps))
    decreases |steps|
  {
    if steps != [] {
      FineStepKeepsIntact(c, f, steps[0]);
      FineRunKeepsIntact(c, FineApply(c, f, steps[0]), steps[1..]);
    }
  }

  lemma {:induction false} FineSplit(c: Config, f: Fine, a: seq<FineStep>, b: seq<FineStep>)
    requires FineLegal(c, f, a + b)
    ensures FineLegal(c, f, a) && FineLegal(c, FineExec(c, f, a), b)
    ensures FineExec(c, f, a + b) == FineExec(c, FineExec(c, f, a), b)
    decreases |a|
  {
    if a == [] {
      assert a + b == b;
    } else {
      assert (a + b)[1..] == a[1..] + b;
      FineSplit(c, FineApply(c, f, a[0]), a[1..], b);
    }
  }

  lemma {:induction false} FineRunGrows(c: Config, f: Fine, steps: seq<FineStep>)
    requires FineIntact(c, f) && FineLegal(c, f, steps)
    ensures Grows(f.s, FineExec(c, f, steps).s)
    decreases |steps|
  {
    if steps != [] {
      FineStepGrows(c, f, steps[0]);
      FineStepKeepsIntact(c, f, steps[0]);
      FineRunGrows(c, FineApply(c, f, steps[0]), steps[1..]);
    }
  }

  /** What a run has stored, its continuations keep. */
  lemma LongerRunGrows(c: Config, a: seq<FineStep>, b: seq<FineStep>)
    requires a <= b && FineLegal(c, FINE_INITIAL, b)
    ensures FineLegal(c, FINE_INITIAL, a)
    ensures Grows(FineExec(c, FINE_INITIAL, a).s, FineExec(c, FINE_INITIAL, b).s)
  {
    assert b == a + b[|a|..];
    FineSplit(c, FINE_INITIAL, a, b[|a|..]);
    FineRunKeepsIntact(c, FINE_INITIAL, a);
    FineRunGrows(c, FineExec(c, FINE_INITIAL, a), b[|a|..]);
  }

  // ------------------------------------------- and back: windows taken at once

  /** The fine steps of a coarse one: a window's read, and its write if there is one. */
  function Split(f: Fine, step: Step): seq<FineStep> {
    if !IsWindow(step) then [Plain(step)]
    else if step.task < |f.s.tasks| && AtWindow(f.s.tasks[step.task].pc) && Opens(f, step.task)
    then [Get(step.task), Update(step.task)]
    else [Get(step.task)]
  }

  lemma SplitStep(c: Config, s: State, step: Step)
    requires Enabled(c, s, step)
    ensures var f := Fine(s, map[]);
            FineLegal(c, f, Split(f, step)) && FineExec(c, f, Split(f, step)) == Fine(Apply(c, s, step), map[])
  {
    var f := Fine(s, map[]);
    var steps := Split(f, step);
    if |steps| == 2 {
      SplitWindow(c, s, step);
      OneFineStep(c, FineApply(c, f, steps[0]), steps[1]);
      assert steps[1..] == [steps[1]];
    } else {
      assert FineEnabled(c, f, steps[0]) && FineApply(c, f, steps[0]).s == Apply(c, s, step);
      assert FineApply(c, f, steps[0]).open == map[];
      OneFineStep(c, f, steps[0]);
      assert steps == [steps[0]];
    }
  }

  lemma OneFineStep(c: Config, f: Fine, step: FineStep)
    requires FineEnabled(c, f, step)
    ensures FineLegal(c, f, [step]) && FineExec(c, f, [step]) == FineApply(c, f, step)
  {
    assert [step][1..] == [];
  }

  lemma SplitWindow(c: Config, s: State, step: Step)
    requires Enabled(c, s, step) && IsWindow(step) && Opens(Fine(s, map[]), step.task)
    ensures var f := Fine(s, map[]);
            && FineEnabled(c, f, Get(step.task)) && FineEnabled(c, FineApply(c, f, Get(step.task)), Update(step.task))
            && FineApply(c, FineApply(c, f, Get(step.task)), Update(step.task)) == Fine(Apply(c, s, step), map[])
  {
    var f, t := Fine(s, map[]), step.task;
    var f' := FineApply(c, f, Get(t));
    assert f' == Fine(s, map[t := RowOf(s, t).value]);
    assert f'.open - {t} == map[];
  }

  lemma {:induction false} FineConcat(c: Config, f: Fine, a: seq<FineStep>, b: seq<FineStep>)
    requires FineLegal(c, f, a) && FineLegal(c, FineExec(c, f, a), b)
    ensures FineLegal(c, f, a + b) && FineExec(c, f, a + b) == FineExec(c, FineExec(c, f, a), b)
    decreases |a|
  {
    if a == [] {
      assert a + b == b;
    } else {
      assert (a + b)[1..] == a[1..] + b;
      FineConcat(c, FineApply(c, f, a[0]), a[1..], b);
    }
  }

  /** Runs grow at the end, too. */
  lemma FineExtend(c: Config, f: Fine, steps: seq<FineStep>, step: FineStep)
    requires FineLegal(c, f, steps) && FineEnabled(c, FineExec(c, f, steps), step)
    ensures FineLegal(c, f, steps + [step])
            && FineExec(c, f, steps + [step]) == FineApply(c, FineExec(c, f, steps), step)
  {
    OneFineStep(c, FineExec(c, f, steps), step);
    FineConcat(c, f, steps, [step]);
  }

  /** Every run with atomic windows is a run of the code's own granularity. */
  lemma {:induction false} CoarseIsFine(c: Config, s: State, steps: seq<Step>) returns (fine: seq<FineStep>)
    requires Legal(c, s, steps)
    ensures FineLegal(c, Fine(s, map[]), fine) && FineExec(c, Fine(s, map[]), fine) == Fine(Exec(c, s, steps), map[])
    decreases |steps|
  {
    if steps == [] {
      fine := [];
    } else {
      var rest := CoarseIsFine(c, Apply(c, s, steps[0]), steps[1..]);
      SplitStep(c, s, steps[0]);
      fine := Split(Fine(s, map[]), steps[0]) + rest;
      FineConcat(c, Fine(s, map[]), Split(Fine(s, map[]), steps[0]), rest);
    }
  }
}
