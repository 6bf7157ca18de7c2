/**
 Submissions: row first, pointer second. Every pointer resolves in every
 reachable state, and a row whose pointer never reached the stream is inert
 (src/app/services/ingestion.py).
 */
module Submission {
  import opened Jobs
  import opened Protocol
  import opened Integrity

  lemma {:induction false} RunKeepsIntact(c: Config, s: State, steps: seq<Step>)
    requires Intact(c, s) && Legal(c, s, steps)
    ensures Intact(c, Exec(c, s, steps))
    decreases |steps|
  {
    if steps != [] {
      StepKeepsIntegrity(c, s, steps[0]);
      RunKeepsIntact(c, Apply(c, s, steps[0]), steps[1..]);
    }
  }

  /** Every pointer, dead letter and task names an existing row of its job type: `JobNotFound` cannot happen. */
  lemma EveryPointerResolves(c: Config, steps: seq<Step>)
    requires Legal(c, INITIAL, steps)
    ensures var s := Exec(c, INITIAL, steps);
            && (forall e :: 0 <= e < |s.stream| ==> Resolves(s.rows, s.stream[e]))
            && (forall i :: 0 <= i < |s.dlq| ==> Resolves(s.rows, s.dlq[i].msg))
            && (forall t :: 0 <= t < |s.tasks| ==> RowOf(s, t).Some?)
  {
    RunKeepsIntact(c, INITIAL, steps);
    var s := Exec(c, INITIAL, steps);
    forall e | 0 <= e < |s.stream| ensures Resolves(s.rows, s.stream[e]) {
      assert PointerOk(c, s.rows, s.stream[e]);
    }
    forall t | 0 <= t < |s.tasks| ensures RowOf(s, t).Some? {
      assert TaskOk(c, s, s.tasks[t]);
    }
  }

  /** A row is as it was submitted until a pointer to it is published. */
  ghost predicate FreshUntilPublished(s: State) {
    forall j :: j in s.rows && Unpublished(s, j) ==> s.rows[j] == NewJob(j, s.rows[j].jobType, s.rows[j].payload)
  }

  /** Only a submission or a task with a pointer writes a row. */
  predicate WriterOk(s: State, d: Change) {
    d.write.Some? ==>
      || (d.write.value.id !in s.rows
        && d.write.value == NewJob(d.write.value.id, d.write.value.jobType, d.write.value.payload))
      || (d.move.Goto? && d.move.task < |s.tasks| && d.write.value.id == s.tasks[d.move.task].msg.jobId)
  }

  lemma EveryWriterOk(c: Config, s: State, step: Step)
    requires Intact(c, s) && Enabled(c, s, step)
    ensures WriterOk(s, ChangeOf(c, s, step))
  {
    if OfTask(step) { assert TaskOk(c, s, s.tasks[step.task]) && PointerOk(c, s.rows, s.tasks[step.task].msg); }
  }

  lemma ChangeOnUnpublished(c: Config, s: State, d: Change, j: JobId)
    requires Intact(c, s) && WriterOk(s, d) && j in s.rows && Unpublished(s, j)
    ensures j in Perform(s, d).rows && Perform(s, d).rows[j] == s.rows[j]
  {
    if d.move.Goto? && d.move.task < |s.tasks| { assert TaskOk(c, s, s.tasks[d.move.task]); }
  }

  lemma StepKeepsFreshRows(c: Config, s: State, step: Step)
    requires Intact(c, s) && FreshUntilPublished(s) && Enabled(c, s, step)
    ensures FreshUntilPublished(Apply(c, s, step))
  {
    var d := ChangeOf(c, s, step);
    var s' := Perform(s, d);
    EveryWriterOk(c, s, step);
    StepKeepsIntegrity(c, s, step);
    forall j | j in s'.rows && Unpublished(s', j)
      ensures s'.rows[j] == NewJob(j, s'.rows[j].jobType, s'.rows[j].payload)
    {
      if j in s.rows {
        forall e | 0 <= e < |s.stream| ensures s.stream[e].jobId != j { assert s'.stream[e] == s.stream[e]; }
        ChangeOnUnpublished(c, s, d, j);
      }
    }
  }

  lemma {:induction false} RunKeepsFreshRows(c: Config, s: State, steps: seq<Step>)
    requires Intact(c, s) && FreshUntilPublished(s) && Legal(c, s, steps)
    ensures FreshUntilPublished(Exec(c, s, steps))
    decreases |steps|
  {
    if steps != [] {
      StepKeepsFreshRows(c, s, steps[0]);
      StepKeepsIntegrity(c, s, steps[0]);
      RunKeepsFreshRows(c, Apply(c, s, steps[0]), steps[1..]);
    }
  }

  /** A submission that has ended without a pointer in the stream. */
  predicate Orphaned(s: State, j: JobId) {
    j in s.rows && j !in s.submitting && Unpublished(s, j)
  }

  predicate PublisherOk(s: State, d: Change) {
    && (d.publish.Some? ==>
          || d.publish.value.jobId in s.submitting
          || (exists t :: 0 <= t < |s.tasks| && s.tasks[t].msg.jobId == d.publish.value.jobId))
    && (forall j :: j in d.submitting ==> j in s.submitting || j !in s.rows)
  }

  lemma EveryPublisherOk(c: Config, s: State, step: Step)
    requires Intact(c, s) && Enabled(c, s, step)
    ensures PublisherOk(s, ChangeOf(c, s, step))
  {
    if step.Republish? { assert s.tasks[step.task].msg.jobId == ChangeOf(c, s, step).publish.value.jobId; }
  }

  lemma OrphanStays(c: Config, s: State, step: Step, j: JobId)
    requires Intact(c, s) && Orphaned(s, j) && Enabled(c, s, step)
    ensures Orphaned(Apply(c, s, step), j) && Apply(c, s, step).rows[j] == s.rows[j]
  {
    var d := ChangeOf(c, s, step);
    EveryWriterOk(c, s, step);
    EveryPublisherOk(c, s, step);
    ChangeOnUnpublished(c, s, d, j);
    forall t | 0 <= t < |s.tasks| ensures s.tasks[t].msg.jobId != j { assert TaskOk(c, s, s.tasks[t]); }
  }

  /** An orphaned row is never touched again, by anyone, in any later state. */
  lemma {:induction false} OrphanIsInert(c: Config, s: State, steps: seq<Step>, j: JobId)
    requires Intact(c, s) && Orphaned(s, j) && Legal(c, s, steps)
    ensures Orphaned(Exec(c, s, steps), j) && Exec(c, s, steps).rows[j] == s.rows[j]
    decreases |steps|
  {
    if steps != [] {
      OrphanStays(c, s, steps[0], j);
      StepKeepsIntegrity(c, s, steps[0]);
      OrphanIsInert(c, Apply(c, s, steps[0]), steps[1..], j);
    }
  }

  /** So an orphan stays pending with no attempts, however the run goes on. */
  lemma OrphanStaysPending(c: Config, steps: seq<Step>, later: seq<Step>, j: JobId)
    requires Legal(c, INITIAL, steps) && Orphaned(Exec(c, INITIAL, steps), j)
    requires Legal(c, Exec(c, INITIAL, steps), later)
    ensures var s := Exec(c, Exec(c, INITIAL, steps), later);
            j in s.rows && s.rows[j].status == Pending && s.rows[j].attempts == 0
  {
    RunKeepsIntact(c, INITIAL, steps);
    RunKeepsFreshRows(c, INITIAL, steps);
    OrphanIsInert(c, Exec(c, INITIAL, steps), later, j);
  }
}
