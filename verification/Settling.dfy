/**
 No job is lost at the code's own granularity, and exactly which write breaks the
 argument for it: a begin or requeue write over a terminal row that some forgotten
 pointer of the job leans on.
 */
module Settling {
  import opened Wrappers
  import opened Jobs
  import opened Messages
  import opened Protocol
  import opened Integrity
  import opened NoLoss
  import opened Windows
  import opened Races
  import opened FineRuns

  /** Some pointer of `j` is acked, or about to be, without a successor. */
  predicate LeansOnRow(s: State, j: JobId) {
    || (exists e :: 0 <= e < |s.stream| && s.stream[e].jobId == j && Acked(s, e) && !HasSuccessor(s, s.stream[e]))
    || (exists t :: 0 <= t < |s.tasks| && s.tasks[t].msg.jobId == j && ReadyToAck(s.tasks[t].pc)
                    && !HasSuccessor(s, s.tasks[t].msg))
  }

  /** The step reopens a terminal row that is all a forgotten pointer has to show. */
  predicate Unsettling(f: Fine, step: FineStep) {
    && step.Update? && step.task < |f.s.tasks|
    && var j := f.s.tasks[step.task].msg.jobId;
       WritesLive(f, step, j) && IsTerminalRow(f.s, j) && !DeadLettered(f.s, j) && LeansOnRow(f.s, j)
  }

  // ------------------------------------------------------------ what it keeps

  lemma LettersAndSuccessorsStay(s: State, s': State, m: JobMessage)
    requires Grows(s, s')
    ensures DeadLettered(s, m.jobId) ==> DeadLettered(s', m.jobId)
    ensures HasSuccessor(s, m) ==> HasSuccessor(s', m)
  {
    if DeadLettered(s, m.jobId) {
      var i :| 0 <= i < |s.dlq| && s.dlq[i].msg.jobId == m.jobId;
      assert s'.dlq[i] == s.dlq[i];
    }
    if HasSuccessor(s, m) {
      var e :| 0 <= e < |s.stream| && s.stream[e] == m.NextAttempt();
      assert s'.stream[e] == s.stream[e];
    }
  }

  lemma SettledStaysFine(c: Config, f: Fine, step: FineStep, m: JobMessage)
    requires FineIntact(c, f) && RecordsOk(f) && FineEnabled(c, f, step) && Settled(f.s, m)
    requires WritesLive(f, step, m.jobId) ==>
               !IsTerminalRow(f.s, m.jobId) || DeadLettered(f.s, m.jobId) || HasSuccessor(f.s, m)
    ensures Settled(FineApply(c, f, step).s, m)
  {
    FineStepGrows(c, f, step);
    LettersAndSuccessorsStay(f.s, FineApply(c, f, step).s, m);
    if IsTerminalRow(f.s, m.jobId) { TerminalReopensIff(c, f, step, m.jobId); }
  }

  /** A read that opens no window ends it at once, like the step of the coarse machine. */
  lemma ClosedWindow(c: Config, f: Fine, t: TaskId)
    requires FineEnabled(c, f, Get(t)) && !Opens(f, t)
    ensures var w := WindowStep(f.s, t);
            Enabled(c, f.s, w) && OfTask(w) && w.task == t && FineApply(c, f, Get(t)).s == Apply(c, f.s, w)
  {
  }

  lemma UpdateIsNoAck(c: Config, f: Fine, t: TaskId)
    requires FineIntact(c, f) && FineEnabled(c, f, Update(t))
    ensures t < |FineApply(c, f, Update(t)).s.tasks| && !ReadyToAck(FineApply(c, f, Update(t)).s.tasks[t].pc)
  {
    assert OpenOk(f, t, f.open[t]);
  }

  lemma FineAckIsEarned(c: Config, f: Fine, step: FineStep, t: TaskId)
    requires FineIntact(c, f) && RecordsOk(f) && AcksSettled(f.s) && FineEnabled(c, f, step)
    requires Actor(step) == Some(t) && t < |FineApply(c, f, step).s.tasks|
    requires ReadyToAck(FineApply(c, f, step).s.tasks[t].pc)
    ensures t < |f.s.tasks| && Settled(FineApply(c, f, step).s, f.s.tasks[t].msg)
  {
    match step
    case Plain(st) => AckIsEarned(c, f.s, st);
    case Get(_) =>
      if !Opens(f, t) {
        ClosedWindow(c, f, t);
        AckIsEarned(c, f.s, WindowStep(f.s, t));
      }
    case Update(_) => UpdateIsNoAck(c, f, t);
  }

  lemma FineOnlyAcksSettle(c: Config, f: Fine, step: FineStep, e: EntryId)
    requires FineEnabled(c, f, step) && FineIntact(c, f)
    requires !Acked(f.s, e) && Acked(FineApply(c, f, step).s, e)
    ensures step.Plain? && step.step.Ack? && f.s.tasks[step.step.task].entry == e
  {
    if step.Plain? { OnlyAcksSettle(c, f.s, step.step, e); }
  }

  lemma TaskStaysSettled(c: Config, f: Fine, step: FineStep, t: TaskId)
    requires FineIntact(c, f) && RecordsOk(f) && AcksSettled(f.s) && FineEnabled(c, f, step) && !Unsettling(f, step)
    requires t < |FineApply(c, f, step).s.tasks| && ReadyToAck(FineApply(c, f, step).s.tasks[t].pc)
    ensures Settled(FineApply(c, f, step).s, FineApply(c, f, step).s.tasks[t].msg)
  {
    if Actor(step) == Some(t) {
      FineAckIsEarned(c, f, step, t);
      FineStepGrows(c, f, step);
    } else {
      if step.Plain? { OtherAcks(c, f.s, step.step, t); }
      OthersStand(c, f, step, t);
      SettledStaysFine(c, f, step, f.s.tasks[t].msg);
    }
  }

  lemma EntryStaysSettled(c: Config, f: Fine, step: FineStep, e: EntryId)
    requires FineIntact(c, f) && RecordsOk(f) && AcksSettled(f.s) && FineEnabled(c, f, step) && !Unsettling(f, step)
    requires Acked(FineApply(c, f, step).s, e) && e < |FineApply(c, f, step).s.stream|
    ensures Settled(FineApply(c, f, step).s, FineApply(c, f, step).s.stream[e])
  {
    FineStepGrows(c, f, step);
    if !Acked(f.s, e) {
      FineOnlyAcksSettle(c, f, step, e);
      assert TaskOk(c, f.s, f.s.tasks[step.step.task]);
    }
    SettledStaysFine(c, f, step, f.s.stream[e]);
  }

  lemma HarmlessStepSettles(c: Config, f: Fine, step: FineStep)
    requires FineIntact(c, f) && RecordsOk(f) && AcksSettled(f.s) && FineEnabled(c, f, step) && !Unsettling(f, step)
    ensures AcksSettled(FineApply(c, f, step).s)
  {
    var s' := FineApply(c, f, step).s;
    forall e | 0 <= e < |s'.stream| && Acked(s', e) ensures Settled(s', s'.stream[e]) {
      EntryStaysSettled(c, f, step, e);
    }
    forall t | 0 <= t < |s'.tasks| && ReadyToAck(s'.tasks[t].pc) ensures Settled(s', s'.tasks[t].msg) {
      TaskStaysSettled(c, f, step, t);
    }
  }

  // ----------------------------------------------------------- what breaks it

  /** Such a write touches nothing but the row and its own task. */
  lemma UpdateFrame(c: Config, f: Fine, t: TaskId)
    requires FineIntact(c, f) && FineEnabled(c, f, Update(t))
    ensures var s' := FineApply(c, f, Update(t)).s;
            && s'.stream == f.s.stream && s'.cursor == f.s.cursor && s'.pel == f.s.pel && s'.dlq == f.s.dlq
            && |s'.tasks| == |f.s.tasks|
            && (forall u :: 0 <= u < |f.s.tasks| && u != t ==> s'.tasks[u] == f.s.tasks[u])
  {
  }

  /** The pointer that leaned on the row is left with nothing. */
  lemma LeftUnsettled(s: State, s': State, t: TaskId, j: JobId)
    requires s'.stream == s.stream && s'.cursor == s.cursor && s'.pel == s.pel && s'.dlq == s.dlq
    requires |s'.tasks| == |s.tasks| && forall u :: 0 <= u < |s.tasks| && u != t ==> s'.tasks[u] == s.tasks[u]
    requires t < |s.tasks| && !ReadyToAck(s.tasks[t].pc)
    requires LeansOnRow(s, j) && !DeadLettered(s, j) && !IsTerminalRow(s', j)
    ensures !AcksSettled(s')
  {
    assert !DeadLettered(s', j);
    if e :| 0 <= e < |s.stream| && s.stream[e].jobId == j && Acked(s, e) && !HasSuccessor(s, s.stream[e]) {
      assert Acked(s', e) && !Settled(s', s'.stream[e]);
    } else {
      var u :| 0 <= u < |s.tasks| && s.tasks[u].msg.jobId == j && ReadyToAck(s.tasks[u].pc)
               && !HasSuccessor(s, s.tasks[u].msg);
      assert s'.tasks[u] == s.tasks[u] && !Settled(s', s'.tasks[u].msg);
    }
  }

  lemma UnsettlingUnsettles(c: Config, f: Fine, step: FineStep)
    requires FineIntact(c, f) && RecordsOk(f) && FineEnabled(c, f, step) && Unsettling(f, step)
    ensures !AcksSettled(FineApply(c, f, step).s)
  {
    var j := f.s.tasks[step.task].msg.jobId;
    TerminalReopensIff(c, f, step, j);
    UpdateFrame(c, f, step.task);
    LeftUnsettled(f.s, FineApply(c, f, step).s, step.task, j);
  }

  // ------------------------------------------------------------ main results

  predicate NoneUnsettling(c: Config, f: Fine, steps: seq<FineStep>)
    requires FineLegal(c, f, steps)
    decreases |steps|
  {
    steps == [] || (!Unsettling(f, steps[0]) && NoneUnsettling(c, FineApply(c, f, steps[0]), steps[1..]))
  }

  /** At every point of the run, whatever is acked or about to be is settled. */
  ghost predicate SettledThroughout(c: Config, f: Fine, steps: seq<FineStep>)
    requires FineLegal(c, f, steps)
    decreases |steps|
  {
    AcksSettled(f.s) && (steps == [] || SettledThroughout(c, FineApply(c, f, steps[0]), steps[1..]))
  }

  /** In every run, acks are settled throughout if and only if no write is unsettling. */
  lemma {:induction false} SettledIffNoneUnsettling(c: Config, f: Fine, steps: seq<FineStep>)
    requires FineIntact(c, f) && RecordsOk(f) && AcksSettled(f.s) && FineLegal(c, f, steps)
    ensures SettledThroughout(c, f, steps) <==> NoneUnsettling(c, f, steps)
    decreases |steps|
  {
    if steps != [] {
      if Unsettling(f, steps[0]) {
        UnsettlingUnsettles(c, f, steps[0]);
      } else {
        HarmlessStepSettles(c, f, steps[0]);
        FineStepKeepsIntact(c, f, steps[0]);
        StepKeepsRecords(c, f, steps[0]);
        SettledIffNoneUnsettling(c, FineApply(c, f, steps[0]), steps[1..]);
      }
    }
  }

  lemma {:induction false} SettledAtTheEnd(c: Config, f: Fine, steps: seq<FineStep>)
    requires FineIntact(c, f) && FineLegal(c, f, steps) && SettledThroughout(c, f, steps)
    ensures FineIntact(c, FineExec(c, f, steps)) && AcksSettled(FineExec(c, f, steps).s)
    decreases |steps|
  {
    if steps != [] {
      FineStepKeepsIntact(c, f, steps[0]);
      SettledAtTheEnd(c, FineApply(c, f, steps[0]), steps[1..]);
    }
  }

  /** No job is lost in any run without an unsettling write. */
  lemma NoJobIsLostFine(c: Config, steps: seq<FineStep>, e: EntryId)
    requires FineLegal(c, FINE_INITIAL, steps) && NoneUnsettling(c, FINE_INITIAL, steps)
    requires e < |FineExec(c, FINE_INITIAL, steps).s.stream|
    ensures var s := FineExec(c, FINE_INITIAL, steps).s;
            var j := s.stream[e].jobId;
            IsTerminalRow(s, j) || DeadLettered(s, j) || StillQueued(s, j)
  {
    SettledIffNoneUnsettling(c, FINE_INITIAL, steps);
    SettledAtTheEnd(c, FINE_INITIAL, steps);
    FollowSuccessors(c, FineExec(c, FINE_INITIAL, steps).s, e);
  }

  /** A begin write that finds its row pending is harmless, and then so is a stale requeue: its row is dead-lettered. */
  lemma GuardedIsHarmless(c: Config, f: Fine, step: FineStep)
    requires FineInv(c, f) && FineEnabled(c, f, step) && Guarded(f, step)
    ensures !Unsettling(f, step)
  {
  }

  lemma {:induction false} GuardedRunIsHarmless(c: Config, f: Fine, steps: seq<FineStep>)
    requires FineInv(c, f) && FineLegal(c, f, steps) && GuardedRun(c, f, steps)
    ensures NoneUnsettling(c, f, steps)
    decreases |steps|
  {
    if steps != [] {
      GuardedIsHarmless(c, f, steps[0]);
      StepKeepsFineInv(c, f, steps[0]);
      GuardedRunIsHarmless(c, FineApply(c, f, steps[0]), steps[1..]);
    }
  }

  // ------------------------------------------------- exactly when a job is lost

  predicate Queued(s: State, e: EntryId) {
    e < |s.stream| && (e >= s.cursor || e in s.pel)
  }

  /** A job is held as long as something still answers for its pointers. */
  predicate Held(s: State, j: JobId) {
    Unpublished(s, j) || IsTerminalRow(s, j) || DeadLettered(s, j) || StillQueued(s, j)
  }

  /** The ack takes the job's only queued pointer, with nothing else to show for it. */
  predicate AcksLast(f: Fine, step: FineStep, j: JobId) {
    && step.Plain? && step.step.Ack? && step.step.task < |f.s.tasks| && f.s.tasks[step.step.task].msg.jobId == j
    && !IsTerminalRow(f.s, j) && !DeadLettered(f.s, j)
    && forall e :: 0 <= e < |f.s.stream| && f.s.stream[e].jobId == j && Queued(f.s, e) ==>
      e == f.s.tasks[step.step.task].entry
  }

  /** The write reopens a terminal row, with nothing else to show for the job. */
  predicate ReopensLast(f: Fine, step: FineStep, j: JobId) {
    && WritesLive(f, step, j) && IsTerminalRow(f.s, j)
    && !DeadLettered(f.s, j) && !StillQueued(f.s, j)
  }

  lemma AckDrops(c: Config, f: Fine, step: FineStep, j: JobId)
    requires FineIntact(c, f) && FineEnabled(c, f, step) && AcksLast(f, step, j)
    ensures !Held(FineApply(c, f, step).s, j)
  {
    var s', k := FineApply(c, f, step).s, f.s.tasks[step.step.task];
    assert TaskOk(c, f.s, k);
    assert s'.stream[k.entry].jobId == j;
  }

  lemma WriteDrops(c: Config, f: Fine, step: FineStep, j: JobId)
    requires FineIntact(c, f) && RecordsOk(f) && FineEnabled(c, f, step) && ReopensLast(f, step, j)
    ensures !Held(FineApply(c, f, step).s, j)
  {
    var s' := FineApply(c, f, step).s;
    TerminalReopensIff(c, f, step, j);
    UpdateFrame(c, f, step.task);
    assert TaskOk(c, f.s, f.s.tasks[step.task]);
    assert s'.stream[f.s.tasks[step.task].entry].jobId == j;
  }

  /** A queued pointer stays queued, unless it is acked. */
  lemma QueuedStays(c: Config, f: Fine, step: FineStep, e: EntryId)
    requires FineIntact(c, f) && FineEnabled(c, f, step) && Queued(f.s, e)
    requires step.Plain? && step.step.Ack? ==> f.s.tasks[step.step.task].entry != e
    ensures Queued(FineApply(c, f, step).s, e)
  {
    FineStepGrows(c, f, step);
    if step.Plain? { PlainQueued(c, f.s, step.step, e); }
  }

  lemma PlainQueued(c: Config, s: State, step: Step, e: EntryId)
    requires Intact(c, s) && Enabled(c, s, step) && Queued(s, e) && (step.Ack? ==> s.tasks[step.task].entry != e)
    ensures Queued(Apply(c, s, step), e)
  {
  }

  /** A new pointer is queued. */
  lemma NewIsQueued(c: Config, f: Fine, step: FineStep, e: EntryId)
    requires FineIntact(c, f) && FineEnabled(c, f, step) && |f.s.stream| <= e < |FineApply(c, f, step).s.stream|
    ensures Queued(FineApply(c, f, step).s, e)
  {
  }

  lemma HoldsOn(c: Config, f: Fine, step: FineStep, j: JobId)
    requires FineIntact(c, f) && RecordsOk(f) && FineEnabled(c, f, step) && Held(f.s, j)
    requires !AcksLast(f, step, j) && !ReopensLast(f, step, j)
    ensures Held(FineApply(c, f, step).s, j)
  {
    var s' := FineApply(c, f, step).s;
    FineStepGrows(c, f, step);
    if IsTerminalRow(f.s, j) && !WritesLive(f, step, j) {
      TerminalReopensIff(c, f, step, j);
    } else if DeadLettered(f.s, j) {
      var i :| 0 <= i < |f.s.dlq| && f.s.dlq[i].msg.jobId == j;
      assert s'.dlq[i] == f.s.dlq[i];
    } else if StillQueued(f.s, j) {
      var e := StaysSomewhere(c, f, step, j);
      QueuedStays(c, f, step, e);
      assert s'.stream[e] == f.s.stream[e];
    } else if e :| |f.s.stream| <= e < |s'.stream| && s'.stream[e].jobId == j {
      NewIsQueued(c, f, step, e);
    }
  }

  /** Some queued pointer of the job is not the one being acked. */
  lemma StaysSomewhere(c: Config, f: Fine, step: FineStep, j: JobId) returns (e: EntryId)
    requires FineIntact(c, f) && FineEnabled(c, f, step) && StillQueued(f.s, j) && !AcksLast(f, step, j)
    requires !DeadLettered(f.s, j) && (IsTerminalRow(f.s, j) ==> step.Update?)
    ensures e < |f.s.stream| && f.s.stream[e].jobId == j && Queued(f.s, e)
    ensures step.Plain? && step.step.Ack? ==> f.s.tasks[step.step.task].entry != e
  {
    e :| 0 <= e < |f.s.stream| && f.s.stream[e].jobId == j && (e >= f.s.cursor || e in f.s.pel);
    if step.Plain? && step.step.Ack? && f.s.tasks[step.step.task].entry == e {
      assert TaskOk(c, f.s, f.s.tasks[step.step.task]);
      e :| 0 <= e < |f.s.stream| && f.s.stream[e].jobId == j && Queued(f.s, e) && e != f.s.tasks[step.step.task].entry;
    }
  }

  /** A step loses a job if and only if it acks its last pointer, or reopens its row, with nothing else left. */
  lemma LostStepIff(c: Config, f: Fine, step: FineStep, j: JobId)
    requires FineIntact(c, f) && RecordsOk(f) && FineEnabled(c, f, step) && Held(f.s, j)
    ensures Held(FineApply(c, f, step).s, j) <==> !AcksLast(f, step, j) && !ReopensLast(f, step, j)
  {
    if AcksLast(f, step, j) {
      AckDrops(c, f, step, j);
    } else if ReopensLast(f, step, j) {
      WriteDrops(c, f, step, j);
    } else {
      HoldsOn(c, f, step, j);
    }
  }

  predicate NeverDropped(c: Config, f: Fine, steps: seq<FineStep>, j: JobId)
    requires FineLegal(c, f, steps)
    decreases |steps|
  {
    || steps == []
    || (!AcksLast(f, steps[0], j) && !ReopensLast(f, steps[0], j)
      && NeverDropped(c, FineApply(c, f, steps[0]), steps[1..], j))
  }

  predicate HeldThroughout(c: Config, f: Fine, steps: seq<FineStep>, j: JobId)
    requires FineLegal(c, f, steps)
    decreases |steps|
  {
    Held(f.s, j) && (steps == [] || HeldThroughout(c, FineApply(c, f, steps[0]), steps[1..], j))
  }

  /** In every run, a job is held throughout if and only if no step drops it. */
  lemma {:induction false} HeldIffNeverDropped(c: Config, f: Fine, steps: seq<FineStep>, j: JobId)
    requires FineIntact(c, f) && RecordsOk(f) && Held(f.s, j) && FineLegal(c, f, steps)
    ensures HeldThroughout(c, f, steps, j) <==> NeverDropped(c, f, steps, j)
    decreases |steps|
  {
    if steps != [] {
      LostStepIff(c, f, steps[0], j);
      if Held(FineApply(c, f, steps[0]).s, j) {
        FineStepKeepsIntact(c, f, steps[0]);
        StepKeepsRecords(c, f, steps[0]);
        HeldIffNeverDropped(c, FineApply(c, f, steps[0]), steps[1..], j);
      }
    }
  }
}
