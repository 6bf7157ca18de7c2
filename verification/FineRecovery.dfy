/**
 Recovery at the code's own granularity: from the end of every run without an
 unsettling write, a continuation without faults resolves everything. The one
 exception is a worker about to make an unsettling write, which must die first;
 in undisturbed runs there is none.
 */
module FineRecovery {
  import opened Jobs
  import opened Protocol
  import opened NoLoss
  import opened Recovery
  import opened Sums
  import opened Windows
  import opened FineRuns
  import opened Settling

  /** No fault, other than the death of a worker whose pending write would be unsettling. */
  predicate FineHealthy(f: Fine, step: FineStep) {
    match step
    case Plain(st) => Healthy(f.s, st) || (st.Abort? && st.task in f.open && Unsettling(f, Update(st.task)))
    case Get(_) => true
    case Update(_) => !Unsettling(f, step)
  }

  predicate FineHealthyRun(c: Config, f: Fine, steps: seq<FineStep>)
    requires FineLegal(c, f, steps)
    decreases |steps|
  {
    steps == [] || (FineHealthy(f, steps[0]) && FineHealthyRun(c, FineApply(c, f, steps[0]), steps[1..]))
  }

  /** Some healthy continuation resolves everything. */
  ghost predicate CanRecover(c: Config, f: Fine) {
    exists rest :: FineLegal(c, f, rest) && FineHealthyRun(c, f, rest) && Recovered(FineExec(c, f, rest).s)
  }

  lemma RecoversAfter(c: Config, f: Fine, step: FineStep)
    requires FineEnabled(c, f, step) && FineHealthy(f, step) && CanRecover(c, FineApply(c, f, step))
    ensures CanRecover(c, f)
  {
    var f' := FineApply(c, f, step);
    var rest :| FineLegal(c, f', rest) && FineHealthyRun(c, f', rest) && Recovered(FineExec(c, f', rest).s);
    var steps := [step] + rest;
    assert steps[1..] == rest;
    assert FineLegal(c, f, steps) && FineHealthyRun(c, f, steps) && FineExec(c, f, steps) == FineExec(c, f', rest);
  }

  lemma RecoversNow(c: Config, f: Fine)
    requires Recovered(f.s)
    ensures CanRecover(c, f)
  {
    assert FineLegal(c, f, []) && FineHealthyRun(c, f, []) && FineExec(c, f, []) == f;
  }

  /** What recovery starts from, and keeps. */
  ghost predicate Steady(c: Config, f: Fine) {
    FineIntact(c, f) && RecordsOk(f) && AcksSettled(f.s)
  }

  lemma HarmlessStepIsSteady(c: Config, f: Fine, step: FineStep)
    requires Steady(c, f) && FineEnabled(c, f, step) && !Unsettling(f, step)
    ensures Steady(c, FineApply(c, f, step))
  {
    HarmlessStepSettles(c, f, step);
    FineStepKeepsIntact(c, f, step);
    StepKeepsRecords(c, f, step);
  }

  // ---------------------------------------------------------- coarse steps

  /** A window taken at once finds its row as it read it, so its write is not unsettling. */
  lemma FreshWriteIsHarmless(c: Config, s: State, t: TaskId)
    requires t < |s.tasks| && AtWindow(s.tasks[t].pc) && Opens(Fine(s, map[]), t)
    ensures !Unsettling(Fine(s, map[t := RowOf(s, t).value]), Update(t))
  {
  }

  lemma CoarseStepIsSteady(c: Config, s: State, step: Step)
    requires Steady(c, Fine(s, map[])) && Enabled(c, s, step)
    ensures Steady(c, Fine(Apply(c, s, step), map[]))
  {
    var f := Fine(s, map[]);
    if IsWindow(step) && Opens(f, step.task) {
      SplitWindow(c, s, step);
      FreshWriteIsHarmless(c, s, step.task);
      HarmlessStepIsSteady(c, f, Get(step.task));
      HarmlessStepIsSteady(c, FineApply(c, f, Get(step.task)), Update(step.task));
    } else {
      SingleStep(c, s, step);
      HarmlessStepIsSteady(c, f, Split(f, step)[0]);
    }
  }

  /** A coarse step that is one fine step. */
  lemma SingleStep(c: Config, s: State, step: Step)
    requires Enabled(c, s, step) && !(IsWindow(step) && Opens(Fine(s, map[]), step.task))
    ensures var f := Fine(s, map[]);
            && |Split(f, step)| == 1
            && var fine := Split(f, step)[0];
               && FineEnabled(c, f, fine) && !fine.Update? && FineApply(c, f, fine) == Fine(Apply(c, s, step), map[])
               && (Healthy(s, step) ==> FineHealthy(f, fine))
  {
    SplitStep(c, s, step);
    var f := Fine(s, map[]);
    assert Split(f, step) == [Split(f, step)[0]];
    OneFineStep(c, f, Split(f, step)[0]);
  }

  lemma {:induction false} CoarseRunIsSteady(c: Config, s: State, steps: seq<Step>)
    requires Steady(c, Fine(s, map[])) && Legal(c, s, steps)
    ensures Steady(c, Fine(Exec(c, s, steps), map[]))
    decreases |steps|
  {
    if steps != [] {
      CoarseStepIsSteady(c, s, steps[0]);
      CoarseRunIsSteady(c, Apply(c, s, steps[0]), steps[1..]);
    }
  }

  lemma CoarseStepRecovers(c: Config, s: State, step: Step)
    requires Enabled(c, s, step) && Healthy(s, step) && CanRecover(c, Fine(Apply(c, s, step), map[]))
    ensures CanRecover(c, Fine(s, map[]))
  {
    var f := Fine(s, map[]);
    if IsWindow(step) && Opens(f, step.task) {
      SplitWindow(c, s, step);
      FreshWriteIsHarmless(c, s, step.task);
      RecoversAfter(c, FineApply(c, f, Get(step.task)), Update(step.task));
      RecoversAfter(c, f, Get(step.task));
    } else {
      SingleStep(c, s, step);
      RecoversAfter(c, f, Split(f, step)[0]);
    }
  }

  lemma {:induction false} CoarseRunRecovers(c: Config, s: State, steps: seq<Step>)
    requires Legal(c, s, steps) && HealthyRun(c, s, steps) && CanRecover(c, Fine(Exec(c, s, steps), map[]))
    ensures CanRecover(c, Fine(s, map[]))
    decreases |steps|
  {
    if steps != [] {
      CoarseRunRecovers(c, Apply(c, s, steps[0]), steps[1..]);
      CoarseStepRecovers(c, s, steps[0]);
    }
  }

  /** With no window open, the recovery of the coarse machine is one of the fine machine. */
  lemma RecoversWithoutWindows(c: Config, s: State)
    requires Steady(c, Fine(s, map[]))
    ensures CanRecover(c, Fine(s, map[]))
  {
    var first := ComeToRest(c, s);
    var s1 := Exec(c, s, first);
    var last := ResolveAll(c, s1);
    var s2 := Exec(c, s1, last);
    CoarseRunIsSteady(c, s, first);
    CoarseRunIsSteady(c, s1, last);
    RestIsRecovered(c, s2);
    RecoversNow(c, Fine(s2, map[]));
    CoarseRunRecovers(c, s1, last);
    CoarseRunRecovers(c, s, first);
  }

  // -------------------------------------------------------- closing the windows

  /** The open window's write, or the death of its worker if that write is unsettling. */
  function Closing(f: Fine, t: TaskId): FineStep {
    if Unsettling(f, Update(t)) then Plain(Abort(t)) else Update(t)
  }

  lemma ClosingCloses(c: Config, f: Fine, t: TaskId)
    requires FineIntact(c, f) && t in f.open
    ensures FineEnabled(c, f, Closing(f, t)) && FineHealthy(f, Closing(f, t)) && !Unsettling(f, Closing(f, t))
    ensures FineApply(c, f, Closing(f, t)).open == f.open - {t}
  {
    assert OpenOk(f, t, f.open[t]);
  }

  /** Nobody has to die where every open window is fresh. */
  lemma FreshClosesByWriting(f: Fine, t: TaskId)
    requires Fresh(f) && t in f.open
    ensures Closing(f, t) == Update(t)
  {
  }

  lemma FewerOpen(open: map<TaskId, Job>, t: TaskId)
    requires t in open
    ensures |(open - {t}).Keys| < |open.Keys|
  {
    assert (open - {t}).Keys == open.Keys - {t};
    SubsetSize((open - {t}).Keys, open.Keys);
  }

  lemma {:induction false} SteadyRecovers(c: Config, f: Fine)
    requires Steady(c, f)
    ensures CanRecover(c, f)
    decreases |f.open.Keys|
  {
    if t :| t in f.open {
      ClosingCloses(c, f, t);
      FewerOpen(f.open, t);
      HarmlessStepIsSteady(c, f, Closing(f, t));
      SteadyRecovers(c, FineApply(c, f, Closing(f, t)));
      RecoversAfter(c, f, Closing(f, t));
    } else {
      assert f == Fine(f.s, map[]);
      RecoversWithoutWindows(c, f.s);
    }
  }

  // ------------------------------------------------------------- main result

  /** From every state a run without unsettling writes ends in, a healthy continuation resolves everything. */
  lemma EveryStateRecoversFine(c: Config, steps: seq<FineStep>)
    requires FineLegal(c, FINE_INITIAL, steps) && NoneUnsettling(c, FINE_INITIAL, steps)
    ensures CanRecover(c, FineExec(c, FINE_INITIAL, steps))
  {
    SettledIffNoneUnsettling(c, FINE_INITIAL, steps);
    SettledAtTheEnd(c, FINE_INITIAL, steps);
    RunKeepsRecords(c, FINE_INITIAL, steps);
    SteadyRecovers(c, FineExec(c, FINE_INITIAL, steps));
  }
}
