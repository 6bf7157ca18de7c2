/**
 Fault-free runs: no crash, no failed store or stream call, and no entry taken
 over from a worker that is still on it. Pipelines may still fail in any way.
 In such runs row and pointer move in lock step, no transition is ever refused,
 and a quiet system is a finished one.
 */
module LockStep {
  import opened Wrappers
  import opened Jobs
  import opened Messages
  import opened Protocol
  import opened Integrity

  /** Steps that are not faults. A consumer may claim its own in-flight entries again. */
  predicate FaultFree(s: State, step: Step) {
    match step
    case Publish(_, outcome) => outcome.Published?
    case Read(_, received) => received
    case Reclaim(k, e) => InFlight(s, k, e)
    case Commit(_, outcome) => outcome.Written?
    case Abandon(_) => false
    case ClaimEntry(_, _) => false
    case CountDeliveries(_) => false
    case Abort(_) => false
    case BeginRaises(_, _) => false
    case BeginLost(_, _) => false
    case _ => true
  }

  /** Dead letters of job `j`. */
  function Buried(dlq: seq<DeadLetter>, j: JobId): nat {
    if dlq == [] then 0
    else Buried(dlq[..|dlq| - 1], j) + (if dlq[|dlq| - 1].msg.jobId == j then 1 else 0)
  }

  lemma BuriedAppend(dlq: seq<DeadLetter>, x: DeadLetter, j: JobId)
    ensures Buried(dlq + [x], j) == Buried(dlq, j) + (if x.msg.jobId == j then 1 else 0)
  {
    assert (dlq + [x])[..|dlq|] == dlq;
  }

  lemma {:induction false} BuriedNone(dlq: seq<DeadLetter>, j: JobId)
    requires forall i :: 0 <= i < |dlq| ==> dlq[i].msg.jobId != j
    ensures Buried(dlq, j) == 0
  {
    if dlq != [] { BuriedNone(dlq[..|dlq| - 1], j); }
  }

  // --------------------------------------------------------------- invariant

  predicate Live(k: Task, e: EntryId) {
    k.entry == e && !k.pc.Done?
  }

  /** The last pointer of its job. */
  predicate Current(s: State, e: EntryId) {
    e < |s.stream| && forall i :: e < i < |s.stream| ==> s.stream[i].jobId != s.stream[e].jobId
  }

  predicate Idle(s: State, e: EntryId) {
    forall t :: 0 <= t < |s.tasks| ==> !Live(s.tasks[t], e)
  }

  ghost predicate OneTaskPerEntry(s: State) {
    forall t, u :: 0 <= t < u < |s.tasks| && !s.tasks[t].pc.Done? && !s.tasks[u].pc.Done? ==>
      s.tasks[t].entry != s.tasks[u].entry
  }

  ghost predicate TasksPending(s: State) {
    forall t :: 0 <= t < |s.tasks| && !s.tasks[t].pc.Done? ==>
      Dispatched(s.tasks[t].pc) && (s.tasks[t].pc.AtFail? || s.tasks[t].entry in s.pel)
  }

  predicate Serves(k: Task, e: EntryId) {
    Live(k, e) && !k.pc.AtFail?
  }

  ghost predicate PendingServed(s: State) {
    forall e :: e in s.pel ==> exists t :: 0 <= t < |s.tasks| && Serves(s.tasks[t], e)
  }

  /** One live task per pending entry, and no pending entry without one. */
  ghost predicate Shape(s: State) {
    OneTaskPerEntry(s) && TasksPending(s) && PendingServed(s)
  }

  /** The row a task on its job's current pointer finds. */
  predicate Phase(row: Job, attempt: int, pc: Pc, buried: nat) {
    match pc
    case AtGuard => row.status == Pending && row.attempts == attempt - 1 && buried == 0
    case AtBegin => row.status == Pending && row.attempts == attempt - 1 && buried == 0
    case AtStart(job) => row.status == Running && row.attempts == attempt && buried == 0 && job == row
    case Executing(job) => row.status == Running && row.attempts == attempt && buried == 0 && job == row
    case AtCommit(job) => row.status == Running && row.attempts == attempt && buried == 0 && job.status == Success
      && job.attempts == row.attempts
    case AtRequeue => row.status == Running && row.attempts == attempt && buried == 0
    case AtRepublish => row.status == Pending && row.attempts == attempt && buried == 0
    case AtBury(_) => row.status == Running && row.attempts == attempt && buried == 0
    case AtAckDead(_) => row.status == Running && row.attempts == attempt && buried == 1
    case AtFail(_) => row.status == Running && row.attempts == attempt && buried == 1
    case AtAck => row.status == Success && row.attempts == attempt && buried == 0
    case AtClaimed => false
    case Done => true
  }

  /** A finished job: successful and never buried, or failed and buried once. */
  predicate Finished(row: Job, attempt: int, buried: nat) {
    && row.IsTerminal()
    && row.attempts == attempt
    && buried == (if row.status == Failed then 1 else 0)
  }

  ghost predicate SubmissionOk(s: State, j: JobId)
    requires j in s.rows
  {
    && (Unpublished(s, j) ==>
         s.rows[j].status == Pending && s.rows[j].attempts == 0 && Buried(s.dlq, j) == 0 && j in s.submitting)
    && (j in s.submitting ==> Unpublished(s, j))
  }

  /** Tasks on the current pointer are in phase; those on an older one only have to ack it. */
  ghost predicate TasksOk(s: State, j: JobId)
    requires j in s.rows
  {
    forall t :: 0 <= t < |s.tasks| && s.tasks[t].msg.jobId == j && !s.tasks[t].pc.Done? ==>
      if Current(s, s.tasks[t].entry) then Phase(s.rows[j], s.tasks[t].msg.attempt, s.tasks[t].pc, Buried(s.dlq, j))
      else s.tasks[t].pc.AtAck?
  }

  /** An older pointer has been delivered; the current one is waiting, worked on, or finished. */
  ghost predicate PointersOk(s: State, j: JobId)
    requires j in s.rows
  {
    forall e :: 0 <= e < |s.stream| && s.stream[e].jobId == j ==>
      if !Current(s, e) then e < s.cursor
      else if e >= s.cursor then Phase(s.rows[j], s.stream[e].attempt, AtGuard, Buried(s.dlq, j))
      else Idle(s, e) ==> Finished(s.rows[j], s.stream[e].attempt, Buried(s.dlq, j))
  }

  ghost predicate JobOk(s: State, j: JobId)
    requires j in s.rows
  {
    SubmissionOk(s, j) && TasksOk(s, j) && PointersOk(s, j)
  }

  ghost predicate InStep(c: Config, s: State) {
    Intact(c, s) && Shape(s) && (forall j :: j in s.rows ==> JobOk(s, j))
  }

  // ------------------------------------------------------------------ frames

  /** Nothing about job `j` changes. */
  ghost predicate Untouched(s: State, s': State, j: JobId) {
    && j in s.rows && j in s'.rows && s'.rows[j] == s.rows[j]
    && (j in s'.submitting <==> j in s.submitting)
    && s.stream <= s'.stream && (forall e :: |s.stream| <= e < |s'.stream| ==> s'.stream[e].jobId != j)
    && s.cursor <= s'.cursor <= |s'.stream| && (forall e :: s.cursor <= e < s'.cursor ==> s'.stream[e].jobId != j)
    && |s.tasks| <= |s'.tasks|
    && (forall t :: 0 <= t < |s.tasks| && s.tasks[t].msg.jobId == j ==> s'.tasks[t] == s.tasks[t])
    && (forall t :: 0 <= t < |s'.tasks| && s'.tasks[t].msg.jobId == j ==> t < |s.tasks| && s.tasks[t].msg.jobId == j)
    && Buried(s'.dlq, j) == Buried(s.dlq, j)
  }

  lemma UntouchedCurrent(s: State, s': State, j: JobId, e: EntryId)
    requires Untouched(s, s', j) && e < |s.stream| && s.stream[e].jobId == j
    ensures Current(s', e) <==> Current(s, e)
  {
    if Current(s, e) {
      forall i | e < i < |s'.stream| ensures s'.stream[i].jobId != s'.stream[e].jobId {
        if i < |s.stream| { assert s'.stream[i] == s.stream[i]; }
      }
    } else {
      var i :| e < i < |s.stream| && s.stream[i].jobId == s.stream[e].jobId;
      assert s'.stream[i] == s.stream[i];
    }
  }

  lemma UntouchedJobOk(c: Config, s: State, s': State, j: JobId)
    requires Intact(c, s) && Intact(c, s') && Untouched(s, s', j) && JobOk(s, j)
    ensures JobOk(s', j)
  {
    assert Unpublished(s', j) <==> Unpublished(s, j);
    forall e | 0 <= e < |s'.stream| && s'.stream[e].jobId == j
      ensures e < |s.stream| && (Current(s', e) <==> Current(s, e)) && (e >= s'.cursor <==> e >= s.cursor)
      ensures e < s'.cursor && Idle(s', e) ==> Idle(s, e)
    {
      UntouchedCurrent(s, s', j, e);
      if e < s'.cursor && Idle(s', e) {
        forall t | 0 <= t < |s.tasks| && s.tasks[t].entry == e ensures s'.tasks[t] == s.tasks[t] {
          assert TaskOk(c, s, s.tasks[t]);
        }
      }
    }
    forall t | 0 <= t < |s'.tasks| && s'.tasks[t].msg.jobId == j
      ensures Current(s', s'.tasks[t].entry) <==> Current(s, s'.tasks[t].entry)
    {
      assert TaskOk(c, s, s.tasks[t]);
      UntouchedCurrent(s, s', j, s.tasks[t].entry);
    }
  }

  lemma OthersUntouched(c: Config, s: State, d: Change, j: JobId, i: JobId)
    requires Intact(c, s) && ChangeOk(c, s, d) && i != j && i in s.rows
    requires d.write.Some? ==> d.write.value.id == j
    requires d.publish.Some? ==> d.publish.value.jobId == j
    requires d.bury.Some? ==> d.bury.value.msg.jobId == j
    requires i in d.submitting <==> i in s.submitting
    requires forall e :: s.cursor <= e < d.cursor ==> s.stream[e].jobId == j
    requires d.move.Goto? ==> d.move.task < |s.tasks| && s.tasks[d.move.task].msg.jobId == j
    requires d.move.Spawn? ==> d.move.entry < |s.stream| && s.stream[d.move.entry].jobId == j
    ensures Untouched(s, Perform(s, d), i)
  {
    if d.bury.Some? { BuriedAppend(s.dlq, d.bury.value, i); }
  }

  // ------------------------------------------------------------ a task's step

  /** The change of a task on its own job, short of publishing. */
  predicate OwnChange(s: State, d: Change) {
    && d.move.Goto? && d.move.task < |s.tasks|
    && d.publish.None? && d.cursor == s.cursor && d.submitting == s.submitting
    && (d.write.Some? ==> d.write.value.id == s.tasks[d.move.task].msg.jobId)
    && (d.bury.Some? ==> d.bury.value.msg == s.tasks[d.move.task].msg)
  }

  /** The row and the number of dead letters of the moving task's job after the change. */
  predicate Advances(s: State, d: Change)
    requires OwnChange(s, d) && s.tasks[d.move.task].msg.jobId in s.rows
  {
    var k := s.tasks[d.move.task];
    var row := if d.write.Some? then d.write.value else s.rows[k.msg.jobId];
    var buried := Buried(s.dlq, k.msg.jobId) + if d.bury.Some? then 1 else 0;
    if Current(s, k.entry)
    then Phase(row, k.msg.attempt, d.move.pc, buried) && (d.move.pc.Done? ==> Finished(row, k.msg.attempt, buried))
    else d.move.pc.Done? && d.write.None? && d.bury.None?
  }

  /** At most one pointer of a job is current. */
  lemma OneCurrent(s: State, e: EntryId, i: EntryId)
    requires Current(s, e) && Current(s, i) && s.stream[e].jobId == s.stream[i].jobId
    ensures e == i
  {
  }

  predicate Movable(c: Config, s: State, d: Change) {
    && OwnChange(s, d) && !s.tasks[d.move.task].pc.Done?
    && TaskOk(c, s, s.tasks[d.move.task]) && s.tasks[d.move.task].msg.jobId in s.rows
    && Advances(s, d)
  }

  /** The row and dead-letter count that `Advances` speaks of are those of the new state. */
  lemma OwnJobAfter(c: Config, s: State, d: Change)
    requires Movable(c, s, d)
    ensures var k := s.tasks[d.move.task];
            var s' := Perform(s, d);
            && s'.rows[k.msg.jobId] == (if d.write.Some? then d.write.value else s.rows[k.msg.jobId])
            && Buried(s'.dlq, k.msg.jobId) == Buried(s.dlq, k.msg.jobId) + (if d.bury.Some? then 1 else 0)
  {
    if d.bury.Some? { BuriedAppend(s.dlq, d.bury.value, s.tasks[d.move.task].msg.jobId); }
  }

  lemma OwnTasksOk(c: Config, s: State, d: Change)
    requires Movable(c, s, d) && Intact(c, s) && OneTaskPerEntry(s) && TasksOk(s, s.tasks[d.move.task].msg.jobId)
    ensures TasksOk(Perform(s, d), s.tasks[d.move.task].msg.jobId)
  {
    var s' := Perform(s, d);
    var t, k := d.move.task, s.tasks[d.move.task];
    OwnJobAfter(c, s, d);
    forall u | 0 <= u < |s'.tasks| && s'.tasks[u].msg.jobId == k.msg.jobId && !s'.tasks[u].pc.Done?
      ensures if Current(s', s'.tasks[u].entry)
              then Phase(s'.rows[k.msg.jobId], s'.tasks[u].msg.attempt, s'.tasks[u].pc, Buried(s'.dlq, k.msg.jobId))
              else s'.tasks[u].pc.AtAck?
    {
      assert Current(s', s'.tasks[u].entry) <==> Current(s, s'.tasks[u].entry);
      if u != t {
        assert TaskOk(c, s, s.tasks[u]);
        if Current(s, k.entry) && Current(s, s.tasks[u].entry) { OneCurrent(s, k.entry, s.tasks[u].entry); }
      }
    }
  }

  lemma OwnPointersOk(c: Config, s: State, d: Change)
    requires Movable(c, s, d) && PointersOk(s, s.tasks[d.move.task].msg.jobId)
    ensures PointersOk(Perform(s, d), s.tasks[d.move.task].msg.jobId)
  {
    var s' := Perform(s, d);
    var t, k := d.move.task, s.tasks[d.move.task];
    OwnJobAfter(c, s, d);
    forall e | 0 <= e < |s'.stream| && s'.stream[e].jobId == k.msg.jobId
      ensures Current(s', e) <==> Current(s, e)
      ensures Current(s, e) && e != k.entry ==> !Current(s, k.entry)
      ensures e != k.entry && Idle(s', e) ==> Idle(s, e)
    {
      if Current(s, e) && Current(s, k.entry) { OneCurrent(s, e, k.entry); }
      if e != k.entry && Idle(s', e) {
        forall u | 0 <= u < |s.tasks| ensures !Live(s.tasks[u], e) {
          assert u == t || s'.tasks[u] == s.tasks[u];
        }
      }
    }
    assert !d.move.pc.Done? ==> Live(s'.tasks[t], k.entry);
  }

  lemma OwnJobOk(c: Config, s: State, d: Change)
    requires Movable(c, s, d) && InStep(c, s)
    ensures JobOk(Perform(s, d), s.tasks[d.move.task].msg.jobId)
  {
    var k := s.tasks[d.move.task];
    assert JobOk(s, k.msg.jobId);
    OwnTasksOk(c, s, d);
    OwnPointersOk(c, s, d);
    assert Perform(s, d).stream[k.entry].jobId == k.msg.jobId;
  }

  predicate PelFollows(s: State, d: Change)
    requires d.move.Goto? && d.move.task < |s.tasks|
  {
    var k := s.tasks[d.move.task];
    || (d.pel == s.pel && !d.move.pc.Done? && !d.move.pc.AtFail? && !k.pc.AtFail?)
    || (d.pel == s.pel && d.move.pc.Done? && k.pc.AtFail?)
    || (d.pel == s.pel - {k.entry} && (d.move.pc.Done? || d.move.pc.AtFail?))
  }

  lemma OwnShape(s: State, d: Change)
    requires Shape(s) && d.move.Goto? && d.move.task < |s.tasks| && !s.tasks[d.move.task].pc.Done? && PelFollows(s, d)
    requires !d.move.pc.Done? ==> Dispatched(d.move.pc)
    ensures Shape(Perform(s, d))
  {
    OwnPending(s, d);
    OwnServed(s, d);
  }

  lemma OwnPending(s: State, d: Change)
    requires Shape(s) && d.move.Goto? && d.move.task < |s.tasks| && !s.tasks[d.move.task].pc.Done? && PelFollows(s, d)
    requires !d.move.pc.Done? ==> Dispatched(d.move.pc)
    ensures TasksPending(Perform(s, d)) && OneTaskPerEntry(Perform(s, d))
  {
  }

  lemma OwnServed(s: State, d: Change)
    requires Shape(s) && d.move.Goto? && d.move.task < |s.tasks| && !s.tasks[d.move.task].pc.Done? && PelFollows(s, d)
    ensures PendingServed(Perform(s, d))
  {
    var s' := Perform(s, d);
    forall e | e in s'.pel ensures exists u :: 0 <= u < |s'.tasks| && Serves(s'.tasks[u], e) {
      var u :| 0 <= u < |s.tasks| && Serves(s.tasks[u], e);
      assert Serves(s'.tasks[u], e);
    }
  }

  /** What `InStep` says about one live task. */
  predicate TaskInPhase(c: Config, s: State, t: TaskId) {
    && t < |s.tasks|
    && TaskOk(c, s, s.tasks[t])
    && s.tasks[t].msg.jobId in s.rows && s.rows[s.tasks[t].msg.jobId].id == s.tasks[t].msg.jobId
    && Dispatched(s.tasks[t].pc)
    && (if Current(s, s.tasks[t].entry)
        then Phase(s.rows[s.tasks[t].msg.jobId], s.tasks[t].msg.attempt, s.tasks[t].pc,
          Buried(s.dlq, s.tasks[t].msg.jobId))
        else s.tasks[t].pc.AtAck?)
  }

  lemma LiveInPhase(c: Config, s: State, t: TaskId)
    requires InStep(c, s) && t < |s.tasks| && !s.tasks[t].pc.Done?
    ensures TaskInPhase(c, s, t)
  {
    var k := s.tasks[t];
    assert TaskOk(c, s, k) && PointerOk(c, s.rows, k.msg);
    assert JobOk(s, k.msg.jobId);
  }

  /** In phase, every task finds exactly the row its next call needs. */
  lemma TaskAdvances(c: Config, s: State, step: Step)
    requires Enabled(c, s, step) && FaultFree(s, step) && OfTask(step) && !step.Republish?
    requires TaskInPhase(c, s, step.task)
    ensures Movable(c, s, ChangeOf(c, s, step)) && PelFollows(s, ChangeOf(c, s, step))
    ensures !ChangeOf(c, s, step).move.pc.Done? ==> Dispatched(ChangeOf(c, s, step).move.pc)
  {
    assert ChangeOf(c, s, step).move.task == step.task;
  }

  lemma JobsInStep(c: Config, s: State, d: Change, j: JobId)
    requires InStep(c, s) && ChangeOk(c, s, d)
    requires forall i :: i in s.rows && i != j ==> Untouched(s, Perform(s, d), i)
    requires forall i :: i in Perform(s, d).rows ==> i in s.rows || i == j
    requires j in Perform(s, d).rows ==> JobOk(Perform(s, d), j)
    requires Shape(Perform(s, d))
    ensures InStep(c, Perform(s, d))
  {
    var s' := Perform(s, d);
    ChangeKeepsIntegrity(c, s, d);
    forall i | i in s'.rows ensures JobOk(s', i) {
      if i != j { UntouchedJobOk(c, s, s', i); }
    }
  }

  lemma TaskInStep(c: Config, s: State, d: Change)
    requires InStep(c, s) && ChangeOk(c, s, d) && Movable(c, s, d) && PelFollows(s, d)
    requires !d.move.pc.Done? ==> Dispatched(d.move.pc)
    ensures InStep(c, Perform(s, d))
  {
    var j := s.tasks[d.move.task].msg.jobId;
    forall i | i in s.rows && i != j ensures Untouched(s, Perform(s, d), i) {
      OthersUntouched(c, s, d, j, i);
    }
    OwnShape(s, d);
    OwnJobOk(c, s, d);
    JobsInStep(c, s, d, j);
  }

  // -------------------------------------------------------------- other steps

  /** A pointer for `j` is appended: the row must be waiting for it, and older tasks of `j` only have to ack. */
  lemma AppendJobOk(c: Config, s: State, s': State, m: JobMessage)
    requires Intact(c, s) && Intact(c, s') && m.jobId in s.rows && m.jobId in s'.rows
    requires s'.stream == s.stream + [m] && s'.cursor == s.cursor && s'.rows == s.rows && s'.dlq == s.dlq
    requires m.jobId !in s'.submitting && |s'.tasks| == |s.tasks|
    requires Phase(s.rows[m.jobId], m.attempt, AtGuard, Buried(s.dlq, m.jobId))
    requires forall t :: 0 <= t < |s'.tasks| && s'.tasks[t].msg.jobId == m.jobId ==>
               s'.tasks[t].pc.AtAck? || s'.tasks[t].pc.Done?
    requires forall e :: s.cursor <= e < |s.stream| ==> s.stream[e].jobId != m.jobId
    ensures JobOk(s', m.jobId)
  {
    var last := |s.stream|;
    assert s'.stream[last] == m;
    forall e | 0 <= e < |s'.stream| && s'.stream[e].jobId == m.jobId
      ensures Current(s', e) <==> e == last
    {
    }
    forall t | 0 <= t < |s'.tasks| ensures s'.tasks[t].entry < last { assert TaskOk(c, s', s'.tasks[t]); }
    assert TasksOk(s', m.jobId);
  }

  lemma PublishInStep(c: Config, s: State, step: Step)
    requires InStep(c, s) && Enabled(c, s, step) && step.Publish? && FaultFree(s, step)
    ensures InStep(c, Apply(c, s, step))
  {
    var j := step.job;
    var d := PublishChange(s, j, step.published);
    var s' := Perform(s, d);
    assert JobOk(s, j);
    LoopChangeOk(c, s, step);
    ChangeKeepsIntegrity(c, s, d);
    forall i | i in s.rows && i != j ensures Untouched(s, s', i) {
      OthersUntouched(c, s, d, j, i);
    }
    forall t | 0 <= t < |s'.tasks| ensures s'.tasks[t].msg.jobId != j { assert TaskOk(c, s, s.tasks[t]); }
    AppendJobOk(c, s, s', FirstDelivery(s.rows[j]));
    JobsInStep(c, s, d, j);
  }

  /** The task about to republish stands on the current pointer, and no other task of the job has work left. */
  lemma OnlyAcksBeside(c: Config, s: State, t: TaskId, u: TaskId)
    requires InStep(c, s) && t < |s.tasks| && u < |s.tasks| && u != t
    requires s.tasks[t].pc.AtRepublish? && s.tasks[u].msg.jobId == s.tasks[t].msg.jobId
    ensures s.tasks[u].pc.AtAck? || s.tasks[u].pc.Done?
  {
    var k, l := s.tasks[t], s.tasks[u];
    LiveInPhase(c, s, t);
    if !l.pc.Done? {
      LiveInPhase(c, s, u);
      if Current(s, l.entry) { OneCurrent(s, k.entry, l.entry); }
    }
  }

  lemma OnlyAcksLeft(c: Config, s: State, t: TaskId)
    requires InStep(c, s) && t < |s.tasks| && s.tasks[t].pc.AtRepublish?
    ensures forall u :: 0 <= u < |s.tasks| && u != t && s.tasks[u].msg.jobId == s.tasks[t].msg.jobId ==>
              s.tasks[u].pc.AtAck? || s.tasks[u].pc.Done?
  {
    forall u | 0 <= u < |s.tasks| && u != t && s.tasks[u].msg.jobId == s.tasks[t].msg.jobId
      ensures s.tasks[u].pc.AtAck? || s.tasks[u].pc.Done?
    {
      OnlyAcksBeside(c, s, t, u);
    }
  }

  /** While a task of `j` has work left, no pointer of `j` waits undelivered. */
  lemma NoneWaiting(c: Config, s: State, t: TaskId, e: EntryId)
    requires InStep(c, s) && t < |s.tasks| && s.cursor <= e < |s.stream|
    requires !s.tasks[t].pc.AtAck? && !s.tasks[t].pc.Done?
    ensures s.stream[e].jobId != s.tasks[t].msg.jobId
  {
    var k := s.tasks[t];
    LiveInPhase(c, s, t);
    assert JobOk(s, k.msg.jobId);
    if s.stream[e].jobId == k.msg.jobId && Current(s, e) { OneCurrent(s, e, k.entry); }
  }

  /** What the append of the successor needs to know of the job. */
  lemma ReadyForSuccessor(c: Config, s: State, t: TaskId)
    requires InStep(c, s) && t < |s.tasks| && s.tasks[t].pc.AtRepublish?
    ensures var m := s.tasks[t].msg;
            && m.jobId in s.rows && m.jobId !in s.submitting
            && Phase(s.rows[m.jobId], m.attempt + 1, AtGuard, Buried(s.dlq, m.jobId))
            && (forall e :: s.cursor <= e < |s.stream| ==> s.stream[e].jobId != m.jobId)
  {
    LiveInPhase(c, s, t);
    assert JobOk(s, s.tasks[t].msg.jobId);
    forall e | s.cursor <= e < |s.stream| ensures s.stream[e].jobId != s.tasks[t].msg.jobId { NoneWaiting(c, s, t, e); }
  }

  lemma RepublishJobOk(c: Config, s: State, d: Change)
    requires InStep(c, s) && ChangeOk(c, s, d) && d.move.Goto? && d.move.task < |s.tasks|
    requires s.tasks[d.move.task].pc.AtRepublish?
    requires d == Nothing(s).(publish := Some(s.tasks[d.move.task].msg.NextAttempt()), move := Goto(d.move.task, AtAck))
    ensures s.tasks[d.move.task].msg.jobId in s.rows && JobOk(Perform(s, d), s.tasks[d.move.task].msg.jobId)
  {
    ChangeKeepsIntegrity(c, s, d);
    OnlyAcksLeft(c, s, d.move.task);
    ReadyForSuccessor(c, s, d.move.task);
    AppendJobOk(c, s, Perform(s, d), s.tasks[d.move.task].msg.NextAttempt());
  }

  lemma RepublishInStep(c: Config, s: State, step: Step)
    requires InStep(c, s) && Enabled(c, s, step) && step.Republish?
    ensures InStep(c, Apply(c, s, step))
  {
    var k := s.tasks[step.task];
    var d := Nothing(s).(publish := Some(k.msg.NextAttempt()), move := Goto(step.task, AtAck));
    EveryChangeOk(c, s, step);
    RepublishJobOk(c, s, d);
    forall i | i in s.rows && i != k.msg.jobId ensures Untouched(s, Perform(s, d), i) {
      OthersUntouched(c, s, d, k.msg.jobId, i);
    }
    OwnShape(s, d);
    JobsInStep(c, s, d, k.msg.jobId);
  }

  lemma SubmitInStep(c: Config, s: State, step: Step)
    requires InStep(c, s) && Enabled(c, s, step) && step.Submit?
    ensures InStep(c, Apply(c, s, step))
  {
    var j := step.job;
    var d := ChangeOf(c, s, step);
    var s' := Perform(s, d);
    LoopChangeOk(c, s, step);
    forall e | 0 <= e < |s.stream| ensures s.stream[e].jobId != j { assert PointerOk(c, s.rows, s.stream[e]); }
    forall t | 0 <= t < |s.tasks| ensures s.tasks[t].msg.jobId != j { assert TaskOk(c, s, s.tasks[t]); }
    BuriedNone(s.dlq, j);
    forall i | i in s.rows && i != j ensures Untouched(s, s', i) {
      OthersUntouched(c, s, d, j, i);
    }
    JobsInStep(c, s, d, j);
  }

  lemma ReadInStep(c: Config, s: State, step: Step)
    requires InStep(c, s) && Enabled(c, s, step) && step.Read? && step.received
    ensures InStep(c, Apply(c, s, step))
  {
    var d := ReadChange(s, step.consumer, true);
    EveryChangeOk(c, s, step);
    DeliverInStep(c, s, d);
  }

  lemma DeliverInStep(c: Config, s: State, d: Change)
    requires InStep(c, s) && ChangeOk(c, s, d)
    requires s.cursor < |s.stream| && d.move.Spawn? && d == ReadChange(s, d.move.consumer, true)
    ensures InStep(c, Perform(s, d))
  {
    var j := s.stream[s.cursor].jobId;
    assert PointerOk(c, s.rows, s.stream[s.cursor]);
    forall i | i in s.rows && i != j ensures Untouched(s, Perform(s, d), i) {
      ReadOthers(c, s, d, i);
    }
    ReadShape(c, s, d);
    ReadJobOk(c, s, d);
    JobsInStep(c, s, d, j);
  }

  lemma ReadOthers(c: Config, s: State, d: Change, i: JobId)
    requires Intact(c, s) && ChangeOk(c, s, d) && i in s.rows
    requires s.cursor < |s.stream| && d.move.Spawn? && d == ReadChange(s, d.move.consumer, true)
    requires i != s.stream[s.cursor].jobId
    ensures Untouched(s, Perform(s, d), i)
  {
    OthersUntouched(c, s, d, s.stream[s.cursor].jobId, i);
  }

  lemma ReadShape(c: Config, s: State, d: Change)
    requires Intact(c, s) && Shape(s) && s.cursor < |s.stream| && d.move.Spawn?
             && d == ReadChange(s, d.move.consumer, true)
    ensures Shape(Perform(s, d))
  {
    var s' := Perform(s, d);
    forall t | 0 <= t < |s.tasks| ensures s.tasks[t].entry < s.cursor { assert TaskOk(c, s, s.tasks[t]); }
    forall e | e in s'.pel ensures exists u :: 0 <= u < |s'.tasks| && Serves(s'.tasks[u], e) {
      if e == s.cursor {
        assert Serves(s'.tasks[|s.tasks|], e);
      } else {
        var u :| 0 <= u < |s.tasks| && Serves(s.tasks[u], e);
        assert Serves(s'.tasks[u], e);
      }
    }
  }

  lemma ReadJobOk(c: Config, s: State, d: Change)
    requires InStep(c, s) && s.cursor < |s.stream| && d.move.Spawn? && d == ReadChange(s, d.move.consumer, true)
    requires s.stream[s.cursor].jobId in s.rows
    ensures JobOk(Perform(s, d), s.stream[s.cursor].jobId)
  {
    var s', e, j := Perform(s, d), s.cursor, s.stream[s.cursor].jobId;
    assert JobOk(s, j);
    forall i | 0 <= i < |s.stream| ensures Current(s', i) <==> Current(s, i) {}
    assert Current(s, e);
    assert Live(s'.tasks[|s.tasks|], e);
    forall i | 0 <= i < |s.stream| && s.stream[i].jobId == j && i != e ensures !Current(s, i) {
      if Current(s, i) { OneCurrent(s, i, e); }
    }
    forall t | 0 <= t < |s.tasks| ensures s.tasks[t].entry < e { assert TaskOk(c, s, s.tasks[t]); }
  }

  lemma ReclaimInStep(c: Config, s: State, step: Step)
    requires InStep(c, s) && Enabled(c, s, step) && step.Reclaim? && FaultFree(s, step)
    ensures InStep(c, Apply(c, s, step))
  {
    var d := ClaimChange(s, step.consumer, step.entry);
    EveryChangeOk(c, s, step);
    assert Apply(c, s, step) == Perform(s, d);
    OwnClaimInStep(c, s, d, step.consumer, step.entry);
  }

  lemma OwnClaimShape(s: State, s': State)
    requires Shape(s) && s'.tasks == s.tasks && forall e :: e in s'.pel <==> e in s.pel
    ensures Shape(s')
  {
  }

  /** A claim of an entry that some task serves only counts one more delivery. */
  lemma OwnClaimInStep(c: Config, s: State, d: Change, k: ConsumerId, e: EntryId)
    requires InStep(c, s) && ChangeOk(c, s, d) && e in s.pel && d == ClaimChange(s, k, e)
    ensures InStep(c, Perform(s, d))
  {
    var s' := Perform(s, d);
    ChangeKeepsIntegrity(c, s, d);
    OwnClaimShape(s, s');
    forall j | j in s'.rows ensures JobOk(s', j) {
      UntouchedJobOk(c, s, s', j);
    }
  }

  lemma StepStaysInStep(c: Config, s: State, step: Step)
    requires InStep(c, s) && Enabled(c, s, step) && FaultFree(s, step)
    ensures InStep(c, Apply(c, s, step))
  {
    if step.Submit? {
      SubmitInStep(c, s, step);
    } else if step.Publish? {
      PublishInStep(c, s, step);
    } else if step.Read? {
      ReadInStep(c, s, step);
    } else if step.Reclaim? {
      ReclaimInStep(c, s, step);
    } else if step.Republish? {
      RepublishInStep(c, s, step);
    } else {
      LiveInPhase(c, s, step.task);
      TaskAdvances(c, s, step);
      EveryChangeOk(c, s, step);
      TaskInStep(c, s, ChangeOf(c, s, step));
    }
  }

  // ------------------------------------------------------------ main results

  /** Every step of the run is free of faults where it is taken. */
  predicate FaultFreeRun(c: Config, s: State, steps: seq<Step>)
    requires Legal(c, s, steps)
    decreases |steps|
  {
    steps == [] || (FaultFree(s, steps[0]) && FaultFreeRun(c, Apply(c, s, steps[0]), steps[1..]))
  }

  lemma {:induction false} RunStaysInStep(c: Config, s: State, steps: seq<Step>)
    requires InStep(c, s) && Legal(c, s, steps) && FaultFreeRun(c, s, steps)
    ensures InStep(c, Exec(c, s, steps))
    decreases |steps|
  {
    if steps != [] {
      StepStaysInStep(c, s, steps[0]);
      RunStaysInStep(c, Apply(c, s, steps[0]), steps[1..]);
    }
  }

  /** A transition the task's next call would be refused. */
  predicate Refused(s: State, t: TaskId)
    requires t < |s.tasks|
  {
    var row := RowOf(s, t);
    && row.Some?
    && match s.tasks[t].pc
       case AtBegin => MarkRunning(row.value).Err?
       case AtRequeue => Requeue(row.value).Err?
       case AtFail(cause) => MarkFailed(row.value, ErrorText(cause), None).Err?
       case Executing(job) => MarkSuccess(job, "", None).Err?
       case _ => false
  }

  lemma InStepRefusesNothing(c: Config, s: State, t: TaskId)
    requires InStep(c, s) && t < |s.tasks|
    ensures RowOf(s, t).Some? && !Refused(s, t)
  {
    assert TaskOk(c, s, s.tasks[t]) && PointerOk(c, s.rows, s.tasks[t].msg);
    if !s.tasks[t].pc.Done? {
      LiveInPhase(c, s, t);
      InPhaseNotRefused(c, s, t);
    }
  }

  /** No transition is ever refused, and no row is ever missing. */
  lemma NothingIsRefused(c: Config, steps: seq<Step>, t: TaskId)
    requires Legal(c, INITIAL, steps) && FaultFreeRun(c, INITIAL, steps)
    requires t < |Exec(c, INITIAL, steps).tasks|
    ensures RowOf(Exec(c, INITIAL, steps), t).Some? && !Refused(Exec(c, INITIAL, steps), t)
  {
    RunStaysInStep(c, INITIAL, steps);
    InStepRefusesNothing(c, Exec(c, INITIAL, steps), t);
  }

  lemma InPhaseNotRefused(c: Config, s: State, t: TaskId)
    requires TaskInPhase(c, s, t)
    ensures !Refused(s, t)
  {
  }

  /**
   Row and current pointer agree: a pending row is one attempt behind its
   pointer until the requeue write, any other row has exactly its pointer's attempts.
   */
  predicate InAgreement(c: Config, s: State, e: EntryId)
    requires e < |s.stream|
  {
    && s.stream[e].jobId in s.rows
    && var row := s.rows[s.stream[e].jobId];
       && (row.status != Pending ==> row.attempts == s.stream[e].attempt)
       && (row.status == Pending ==>
             || row.attempts == s.stream[e].attempt - 1
             || (row.attempts == s.stream[e].attempt
                 && exists t :: 0 <= t < |s.tasks| && s.tasks[t].entry == e && s.tasks[t].pc.AtRepublish?))
       && row.attempts <= LastAttempt(c)
  }

  lemma InStepAgrees(c: Config, s: State, e: EntryId)
    requires InStep(c, s) && Current(s, e)
    ensures InAgreement(c, s, e)
  {
    assert PointerOk(c, s.rows, s.stream[e]);
    assert JobOk(s, s.stream[e].jobId);
    if e < s.cursor && !Idle(s, e) {
      var t :| 0 <= t < |s.tasks| && Live(s.tasks[t], e);
      LiveInPhase(c, s, t);
      assert s.tasks[t].msg == s.stream[e];
    }
  }

  lemma RowFollowsPointer(c: Config, steps: seq<Step>, e: EntryId)
    requires Legal(c, INITIAL, steps) && FaultFreeRun(c, INITIAL, steps)
    requires Current(Exec(c, INITIAL, steps), e)
    ensures InAgreement(c, Exec(c, INITIAL, steps), e)
  {
    RunStaysInStep(c, INITIAL, steps);
    InStepAgrees(c, Exec(c, INITIAL, steps), e);
  }

  /** Nothing left to submit, deliver or finish. */
  predicate Quiescent(s: State) {
    && s.submitting == map[]
    && s.cursor == |s.stream|
    && forall t :: 0 <= t < |s.tasks| ==> s.tasks[t].pc.Done?
  }

  /** The step a live task is waiting to take. */
  function NextStep(s: State, t: TaskId): Step
    requires t < |s.tasks|
  {
    match s.tasks[t].pc
    case AtClaimed => CountDeliveries(t)
    case AtGuard => Guard(t)
    case AtBegin => Begin(t)
    case AtStart(_) => StartPipeline(t)
    case Executing(_) => Finish(t, PermanentError(""))
    case AtCommit(_) => Commit(t, Written)
    case AtRequeue => RequeueRow(t)
    case AtRepublish => Republish(t)
    case AtBury(_) => Bury(t)
    case AtAckDead(_) => Ack(t)
    case AtFail(_) => FailRow(t)
    case AtAck => Ack(t)
    case Done => Abort(t)
  }

  /** A fault-free step that is neither a new submission nor a consumer claiming its own entry again. */
  predicate Moves(c: Config, s: State, step: Step) {
    Enabled(c, s, step) && FaultFree(s, step) && !step.Submit? && !step.Reclaim?
  }

  lemma LiveCanStep(c: Config, s: State, t: TaskId)
    requires t < |s.tasks| && !s.tasks[t].pc.Done? && Dispatched(s.tasks[t].pc)
    ensures Moves(c, s, NextStep(s, t))
  {
  }

  lemma SubmitterCanPublish(c: Config, s: State, j: JobId)
    requires j in s.submitting && j in s.rows
    ensures Moves(c, s, Publish(j, Published))
  {
  }

  lemma ReaderCanRead(c: Config, s: State)
    requires s.cursor < |s.stream|
    ensures Moves(c, s, Read(0, true))
  {
  }

  /** A system that is not quiescent can take a fault-free step. */
  lemma SomeStep(c: Config, s: State) returns (step: Step)
    requires InStep(c, s) && !Quiescent(s)
    ensures Moves(c, s, step)
  {
    if j :| j in s.submitting {
      SubmitterCanPublish(c, s, j);
      step := Publish(j, Published);
    } else if s.cursor != |s.stream| {
      ReaderCanRead(c, s);
      step := Read(0, true);
    } else {
      var t :| 0 <= t < |s.tasks| && !s.tasks[t].pc.Done?;
      LiveCanStep(c, s, t);
      step := NextStep(s, t);
    }
  }

  /** No deadlock: a system with no such step left is quiescent. */
  lemma StuckMeansQuiescent(c: Config, s: State)
    requires InStep(c, s)
    requires forall step :: !Moves(c, s, step)
    ensures Quiescent(s)
  {
    if !Quiescent(s) {
      var step := SomeStep(c, s);
    }
  }

  lemma NobodyNothingPending(s: State)
    requires PendingServed(s) && forall t :: 0 <= t < |s.tasks| ==> s.tasks[t].pc.Done?
    ensures s.pel == map[]
  {
    forall e ensures e !in s.pel {}
  }

  /** Every job terminal within its attempts, nothing pending, one dead letter per failed job and none besides. */
  ghost predicate AllFinished(c: Config, s: State) {
    && s.pel == map[]
    && forall j :: j in s.rows ==>
         && s.rows[j].IsTerminal()
         && s.rows[j].attempts <= LastAttempt(c)
         && Buried(s.dlq, j) == (if s.rows[j].status == Failed then 1 else 0)
  }

  lemma RestMeansFinished(c: Config, s: State)
    requires InStep(c, s) && Quiescent(s)
    ensures AllFinished(c, s)
  {
    NobodyNothingPending(s);
    forall j | j in s.rows
      ensures s.rows[j].IsTerminal() && s.rows[j].attempts <= LastAttempt(c)
      ensures Buried(s.dlq, j) == (if s.rows[j].status == Failed then 1 else 0)
    {
      assert JobOk(s, j);
      var e := LastPointer(s, j, |s.stream|);
      assert PointerOk(c, s.rows, s.stream[e]);
      assert Idle(s, e);
    }
  }

  /** A quiet system is a finished one. */
  lemma QuiescentMeansFinished(c: Config, steps: seq<Step>)
    requires Legal(c, INITIAL, steps) && FaultFreeRun(c, INITIAL, steps)
    requires Quiescent(Exec(c, INITIAL, steps))
    ensures AllFinished(c, Exec(c, INITIAL, steps))
  {
    RunStaysInStep(c, INITIAL, steps);
    RestMeansFinished(c, Exec(c, INITIAL, steps));
  }

  /** The current pointer of a published job. */
  lemma {:induction false} LastPointer(s: State, j: JobId, n: nat) returns (e: EntryId)
    requires n <= |s.stream| && !Unpublished(s, j)
    requires forall i :: n <= i < |s.stream| ==> s.stream[i].jobId != j
    ensures e < |s.stream| && s.stream[e].jobId == j && Current(s, e)
  {
    if n == 0 {
      assert false;
    } else if s.stream[n - 1].jobId == j {
      e := n - 1;
    } else {
      e := LastPointer(s, j, n - 1);
    }
  }
}
