/**
 When a failed row is final. It is not in general: the success write is blind, so
 an execution that outlives a duplicate delivery's failure write still wins. It
 is final exactly when no execution of the job is in flight.
 */
module Finality {
  import opened Jobs
  import opened Protocol
  import opened Integrity
  import opened Execution

  predicate Winning(pc: Pc) {
    pc.AtStart? || pc.Executing? || pc.AtCommit?
  }

  /** Some worker still runs the job's pipeline, or is about to write its success. */
  predicate InExecution(s: State, j: JobId) {
    exists t :: 0 <= t < |s.tasks| && s.tasks[t].msg.jobId == j && Winning(s.tasks[t].pc)
  }

  predicate IsFailed(s: State, j: JobId) {
    j in s.rows && s.rows[j].status == Failed
  }

  /** The run changes the row of `j`. */
  predicate Rewrites(c: Config, s: State, steps: seq<Step>, j: JobId)
    requires Legal(c, s, steps) && j in s.rows
  {
    j !in Exec(c, s, steps).rows || Exec(c, s, steps).rows[j] != s.rows[j]
  }

  /** A task starts winning only by beginning an execution. */
  lemma OnlyBeginEnters(c: Config, s: State, step: Step)
    requires Enabled(c, s, step) && OfTask(step) && Winning(Apply(c, s, step).tasks[step.task].pc)
    ensures Winning(s.tasks[step.task].pc) || StartsExecution(s, step, s.tasks[step.task].msg.jobId)
  {
  }

  /** Executions begin on pending rows. */
  lemma FailedNeverStarts(s: State, step: Step, j: JobId)
    requires IsFailed(s, j) && step.Begin? && step.task < |s.tasks|
    ensures !StartsExecution(s, step, j)
  {
  }

  lemma NobodyEnters(c: Config, s: State, step: Step, j: JobId)
    requires Safe(c, s) && Enabled(c, s, step) && IsFailed(s, j) && !InExecution(s, j)
    ensures !InExecution(Apply(c, s, step), j)
  {
    var s' := Apply(c, s, step);
    StepKeepsIntegrity(c, s, step);
    MovesOwnTask(c, s, step);
    forall t | 0 <= t < |s'.tasks| && s'.tasks[t].msg.jobId == j ensures !Winning(s'.tasks[t].pc) {
      if OfTask(step) && step.task == t {
        if Winning(s'.tasks[t].pc) {
          OnlyBeginEnters(c, s, step);
          FailedNeverStarts(s, step, j);
        }
      } else {
        Bystander(c, s, step, t);
      }
    }
  }

  /** A step of another task leaves this one alone; a new task does not start out winning. */
  lemma Bystander(c: Config, s: State, step: Step, t: TaskId)
    requires Enabled(c, s, step) && t < |Apply(c, s, step).tasks| && (OfTask(step) ==> step.task != t)
    ensures Winning(Apply(c, s, step).tasks[t].pc) ==> t < |s.tasks| && Apply(c, s, step).tasks[t] == s.tasks[t]
  {
  }

  lemma NobodyWrites(c: Config, s: State, step: Step, j: JobId)
    requires Safe(c, s) && Enabled(c, s, step) && IsFailed(s, j) && !InExecution(s, j)
    ensures j in Apply(c, s, step).rows && Apply(c, s, step).rows[j] == s.rows[j]
  {
    TerminalStep(c, s, step, j);
    StepCounts(c, s, step, j);
    OnlyWinnersWrite(c, s, step, j);
  }

  lemma OnlyWinnersWrite(c: Config, s: State, step: Step, j: JobId)
    requires Enabled(c, s, step)
    ensures WritesSuccess(s, step, j) ==> InExecution(s, j)
  {
    if WritesSuccess(s, step, j) { assert Winning(s.tasks[step.task].pc); }
  }

  lemma {:induction false} FailedStaysWithoutExecution(c: Config, s: State, steps: seq<Step>, j: JobId)
    requires Safe(c, s) && Legal(c, s, steps) && IsFailed(s, j) && !InExecution(s, j)
    ensures !Rewrites(c, s, steps, j)
    decreases |steps|
  {
    if steps != [] {
      NobodyWrites(c, s, steps[0], j);
      NobodyEnters(c, s, steps[0], j);
      StepKeepsSafe(c, s, steps[0]);
      FailedStaysWithoutExecution(c, Apply(c, s, steps[0]), steps[1..], j);
    }
  }

  lemma CommitWins(c: Config, s: State, t: TaskId)
    requires Safe(c, s) && t < |s.tasks| && s.tasks[t].pc.AtCommit? && IsFailed(s, s.tasks[t].msg.jobId)
    ensures Legal(c, s, [Commit(t, Written)]) && Rewrites(c, s, [Commit(t, Written)], s.tasks[t].msg.jobId)
  {
    var step := Commit(t, Written);
    assert [step][1..] == [];
    StepCounts(c, s, step, s.tasks[t].msg.jobId);
  }

  /** The rest of an execution that goes well. */
  function WinningSteps(pc: Pc, t: TaskId): seq<Step> {
    if pc.AtStart? then [StartPipeline(t), Finish(t, Succeeded("", 0)), Commit(t, Written)]
    else if pc.Executing? then [Finish(t, Succeeded("", 0)), Commit(t, Written)]
    else [Commit(t, Written)]
  }

  lemma {:induction false} ExecutionWins(c: Config, s: State, t: TaskId)
    requires Safe(c, s) && t < |s.tasks| && Winning(s.tasks[t].pc) && IsFailed(s, s.tasks[t].msg.jobId)
    ensures var steps := WinningSteps(s.tasks[t].pc, t);
            Legal(c, s, steps) && Rewrites(c, s, steps, s.tasks[t].msg.jobId)
    decreases |WinningSteps(s.tasks[t].pc, t)|
  {
    var steps := WinningSteps(s.tasks[t].pc, t);
    if s.tasks[t].pc.AtCommit? {
      CommitWins(c, s, t);
    } else {
      var s' := Apply(c, s, steps[0]);
      StepKeepsSafe(c, s, steps[0]);
      assert WinningSteps(s'.tasks[t].pc, t) == steps[1..];
      ExecutionWins(c, s', t);
    }
  }

  /** A failed row can still change exactly when an execution of its job is in flight. */
  lemma FailedIsFinalUnlessInExecution(c: Config, s: State, j: JobId)
    requires Safe(c, s) && IsFailed(s, j)
    ensures InExecution(s, j) <==> exists steps :: Legal(c, s, steps) && Rewrites(c, s, steps, j)
  {
    if InExecution(s, j) {
      var t :| 0 <= t < |s.tasks| && s.tasks[t].msg.jobId == j && Winning(s.tasks[t].pc);
      ExecutionWins(c, s, t);
    } else {
      forall steps | Legal(c, s, steps) ensures !Rewrites(c, s, steps, j) {
        FailedStaysWithoutExecution(c, s, steps, j);
      }
    }
  }
}
