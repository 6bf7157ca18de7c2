/**
 No job is lost: whatever crashes, is reclaimed or fails, a job whose pointer
 ever entered the stream is terminal, dead-lettered, or still has a pointer that
 is undelivered or pending.
 */
module NoLoss {
  import opened Jobs
  import opened Messages
  import opened Protocol
  import opened Integrity
  import opened Execution

  predicate IsTerminalRow(s: State, j: JobId) {
    j in s.rows && s.rows[j].IsTerminal()
  }

  predicate DeadLettered(s: State, j: JobId) {
    exists i :: 0 <= i < |s.dlq| && s.dlq[i].msg.jobId == j
  }

  predicate HasSuccessor(s: State, m: JobMessage) {
    exists e :: 0 <= e < |s.stream| && s.stream[e] == m.NextAttempt()
  }

  /** Why it is safe to forget pointer `m`. */
  predicate Settled(s: State, m: JobMessage) {
    IsTerminalRow(s, m.jobId) || DeadLettered(s, m.jobId) || HasSuccessor(s, m)
  }

  /** Delivered and no longer pending. */
  predicate Acked(s: State, e: EntryId) {
    e < s.cursor && e !in s.pel
  }

  predicate ReadyToAck(pc: Pc) {
    pc.AtAck? || pc.AtAckDead?
  }

  /** Acks come last: whatever is acked, or is about to be, is settled. */
  ghost predicate AcksSettled(s: State) {
    && (forall e :: 0 <= e < |s.stream| && Acked(s, e) ==> Settled(s, s.stream[e]))
    && (forall t :: 0 <= t < |s.tasks| && ReadyToAck(s.tasks[t].pc) ==> Settled(s, s.tasks[t].msg))
  }

  ghost predicate Inv(c: Config, s: State) {
    Safe(c, s) && AcksSettled(s)
  }

  /** A settled pointer stays settled. */
  lemma SettledStays(c: Config, s: State, step: Step, m: JobMessage)
    requires Safe(c, s) && Enabled(c, s, step) && Settled(s, m)
    ensures Settled(Apply(c, s, step), m)
  {
    var s' := Apply(c, s, step);
    StepKeepsIntegrity(c, s, step);
    if IsTerminalRow(s, m.jobId) {
      TerminalStep(c, s, step, m.jobId);
    } else if DeadLettered(s, m.jobId) {
      var i :| 0 <= i < |s.dlq| && s.dlq[i].msg.jobId == m.jobId;
      assert s'.dlq[i] == s.dlq[i];
    } else {
      var e :| 0 <= e < |s.stream| && s.stream[e] == m.NextAttempt();
      assert s'.stream[e] == s.stream[e];
    }
  }

  /** A task reaches its ack only with its pointer settled. */
  lemma AckIsEarned(c: Config, s: State, step: Step)
    requires Intact(c, s) && AcksSettled(s) && Enabled(c, s, step) && OfTask(step)
    requires s.tasks[step.task].pc.AtCommit? ==> s.tasks[step.task].pc.job.status == Success
    requires ReadyToAck(Apply(c, s, step).tasks[step.task].pc)
    ensures Settled(Apply(c, s, step), s.tasks[step.task].msg)
  {
    var k := s.tasks[step.task];
    var s' := Apply(c, s, step);
    assert TaskOk(c, s, k) && PointerOk(c, s.rows, k.msg);
    if step.Republish? {
      assert s'.stream[|s.stream|] == k.msg.NextAttempt();
    } else if step.Bury? {
      assert s'.dlq[|s.dlq|].msg == k.msg;
    } else if step.Commit? {
      assert s'.rows[k.msg.jobId] == k.pc.job;
    } else {
      SkipIsTerminal(c, s, step);
    }
  }

  /** Besides its own outcome, only a terminal row sends a task to its ack. */
  lemma SkipIsTerminal(c: Config, s: State, step: Step)
    requires Enabled(c, s, step) && OfTask(step) && !step.Republish? && !step.Bury? && !step.Commit?
    requires RowOf(s, step.task).Some? && ReadyToAck(Apply(c, s, step).tasks[step.task].pc)
    ensures IsTerminalRow(s, s.tasks[step.task].msg.jobId) && Apply(c, s, step).rows == s.rows
  {
  }

  /** The only entries that leave the pending list are those of tasks ready to ack. */
  lemma OnlyAcksSettle(c: Config, s: State, step: Step, e: EntryId)
    requires Intact(c, s) && Enabled(c, s, step)
    requires !Acked(s, e) && Acked(Apply(c, s, step), e)
    ensures step.Ack? && s.tasks[step.task].entry == e
  {
  }

  lemma StepKeepsInv(c: Config, s: State, step: Step)
    requires Inv(c, s) && Enabled(c, s, step)
    ensures Inv(c, Apply(c, s, step))
  {
    var s' := Apply(c, s, step);
    StepKeepsSafe(c, s, step);
    StepKeepsIntegrity(c, s, step);
    forall e | 0 <= e < |s'.stream| && Acked(s', e) ensures Settled(s', s'.stream[e]) {
      if !Acked(s, e) {
        OnlyAcksSettle(c, s, step, e);
        assert TaskOk(c, s, s.tasks[step.task]);
      }
      SettledStays(c, s, step, s.stream[e]);
    }
    forall t | 0 <= t < |s'.tasks| && ReadyToAck(s'.tasks[t].pc) ensures Settled(s', s'.tasks[t].msg) {
      NewAcks(c, s, step, t);
    }
  }

  lemma OtherAcks(c: Config, s: State, step: Step, t: TaskId)
    requires Intact(c, s) && Enabled(c, s, step) && (OfTask(step) ==> step.task != t)
    requires t < |Apply(c, s, step).tasks| && ReadyToAck(Apply(c, s, step).tasks[t].pc)
    ensures t < |s.tasks| && Apply(c, s, step).tasks[t] == s.tasks[t]
  {
    MovesOwnTask(c, s, step);
    EveryChangeOk(c, s, step);
  }

  lemma OwnAck(c: Config, s: State, step: Step)
    requires Inv(c, s) && Enabled(c, s, step) && OfTask(step) && ReadyToAck(Apply(c, s, step).tasks[step.task].pc)
    ensures Settled(Apply(c, s, step), Apply(c, s, step).tasks[step.task].msg)
  {
    AckIsEarned(c, s, step);
    MovesOwnTask(c, s, step);
  }

  lemma NewAcks(c: Config, s: State, step: Step, t: TaskId)
    requires Inv(c, s) && Enabled(c, s, step)
    requires t < |Apply(c, s, step).tasks| && ReadyToAck(Apply(c, s, step).tasks[t].pc)
    ensures Settled(Apply(c, s, step), Apply(c, s, step).tasks[t].msg)
  {
    if OfTask(step) && step.task == t {
      OwnAck(c, s, step);
    } else {
      OtherAcks(c, s, step, t);
      SettledStays(c, s, step, s.tasks[t].msg);
    }
  }

  lemma {:induction false} RunKeepsInv(c: Config, s: State, steps: seq<Step>)
    requires Inv(c, s) && Legal(c, s, steps)
    ensures Inv(c, Exec(c, s, steps))
    decreases |steps|
  {
    if steps != [] {
      StepKeepsInv(c, s, steps[0]);
      RunKeepsInv(c, Apply(c, s, steps[0]), steps[1..]);
    }
  }

  /** A pointer of `j` that some consumer will still be handed, by a read or by a reclaim. */
  predicate StillQueued(s: State, j: JobId) {
    exists e :: 0 <= e < |s.stream| && s.stream[e].jobId == j && (e >= s.cursor || e in s.pel)
  }

  /** Following successors from any pointer: the highest attempt cannot have one, so something holds the job. */
  lemma {:induction false} FollowSuccessors(c: Config, s: State, e: EntryId)
    requires Intact(c, s) && AcksSettled(s) && e < |s.stream|
    ensures IsTerminalRow(s, s.stream[e].jobId) || DeadLettered(s, s.stream[e].jobId)
            || StillQueued(s, s.stream[e].jobId)
    decreases LastAttempt(c) - s.stream[e].attempt
  {
    assert PointerOk(c, s.rows, s.stream[e]);
    if Acked(s, e) && HasSuccessor(s, s.stream[e]) {
      var e' :| 0 <= e' < |s.stream| && s.stream[e'] == s.stream[e].NextAttempt();
      assert PointerOk(c, s.rows, s.stream[e']);
      FollowSuccessors(c, s, e');
    }
  }

  /** No job is lost, in any reachable state of any run. */
  lemma NoJobIsLost(c: Config, steps: seq<Step>, e: EntryId)
    requires Legal(c, INITIAL, steps) && e < |Exec(c, INITIAL, steps).stream|
    ensures var s := Exec(c, INITIAL, steps);
            var j := s.stream[e].jobId;
            IsTerminalRow(s, j) || DeadLettered(s, j) || StillQueued(s, j)
  {
    RunKeepsInv(c, INITIAL, steps);
    FollowSuccessors(c, Exec(c, INITIAL, steps), e);
  }
}
