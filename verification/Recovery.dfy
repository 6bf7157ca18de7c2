/**
 Recovery: from every reachable state, after whatever crashes and lost calls, a
 continuation without further faults leads to rest. Every submission is published,
 every pointer delivered, every pending entry reclaimed and acked, and every
 published job is terminal or dead-lettered.
 */
module Recovery {
  import opened Jobs
  import opened Protocol
  import opened Integrity
  import opened NoLoss
  import opened LockStep
  import opened Progress
  import opened Submission

  /** No call fails, no reply is lost and nobody dies; anyone may take entries over. */
  predicate Healthy(s: State, step: Step) {
    FaultFree(s, step) || step.Reclaim? || step.ClaimEntry? || step.CountDeliveries?
  }

  predicate HealthyRun(c: Config, s: State, steps: seq<Step>)
    requires Legal(c, s, steps)
    decreases |steps|
  {
    steps == [] || (Healthy(s, steps[0]) && HealthyRun(c, Apply(c, s, steps[0]), steps[1..]))
  }

  lemma Prepend(c: Config, s: State, step: Step, rest: seq<Step>)
    requires Enabled(c, s, step) && Healthy(s, step)
    requires Legal(c, Apply(c, s, step), rest) && HealthyRun(c, Apply(c, s, step), rest)
    ensures Legal(c, s, [step] + rest) && HealthyRun(c, s, [step] + rest)
    ensures Exec(c, s, [step] + rest) == Exec(c, Apply(c, s, step), rest)
  {
    assert ([step] + rest)[1..] == rest;
  }

  lemma {:induction false} HealthyConcat(c: Config, s: State, a: seq<Step>, b: seq<Step>)
    requires Legal(c, s, a) && HealthyRun(c, s, a) && Legal(c, Exec(c, s, a), b) && HealthyRun(c, Exec(c, s, a), b)
    ensures Legal(c, s, a + b) && HealthyRun(c, s, a + b) && Exec(c, s, a + b) == Exec(c, Exec(c, s, a), b)
    decreases |a|
  {
    if a == [] {
      assert a + b == b;
    } else {
      HealthyConcat(c, Apply(c, s, a[0]), a[1..], b);
      Prepend(c, s, a[0], a[1..] + b);
      assert a + b == [a[0]] + (a[1..] + b);
    }
  }

  // ---------------------------------------------------------- coming to rest

  lemma LiveCanWork(c: Config, s: State, t: TaskId)
    requires t < |s.tasks| && !s.tasks[t].pc.Done?
    ensures Enabled(c, s, NextStep(s, t)) && Sound(s, NextStep(s, t)) && Works(NextStep(s, t))
  {
  }

  lemma SomeWork(c: Config, s: State) returns (step: Step)
    requires Intact(c, s) && !Quiescent(s)
    ensures Enabled(c, s, step) && Sound(s, step) && Works(step)
  {
    if j :| j in s.submitting {
      SubmitterCanPublish(c, s, j);
      step := Publish(j, Published);
    } else if s.cursor != |s.stream| {
      ReaderCanRead(c, s);
      step := Read(0, true);
    } else {
      var t :| 0 <= t < |s.tasks| && !s.tasks[t].pc.Done?;
      LiveCanWork(c, s, t);
      step := NextStep(s, t);
    }
  }

  /** Everything in hand is brought to an end; entries whose worker is gone stay pending. */
  lemma {:induction false} ComeToRest(c: Config, s: State) returns (steps: seq<Step>)
    requires Intact(c, s)
    ensures Legal(c, s, steps) && HealthyRun(c, s, steps) && |steps| <= Effort(c, s)
    ensures Quiescent(Exec(c, s, steps)) && Intact(c, Exec(c, s, steps))
    decreases Effort(c, s)
  {
    if Quiescent(s) {
      steps := [];
    } else {
      var step := SomeWork(c, s);
      StepWorks(c, s, step);
      StepKeepsIntegrity(c, s, step);
      var rest := ComeToRest(c, Apply(c, s, step));
      Prepend(c, s, step, rest);
      steps := [step] + rest;
    }
  }

  // --------------------------------------------------- resolving what is left

  /** `t` is the only live task, and nothing is left to publish or deliver. */
  predicate Alone(s: State, t: TaskId) {
    && t < |s.tasks| && s.submitting == map[] && s.cursor == |s.stream|
    && forall u :: 0 <= u < |s.tasks| && u != t ==> s.tasks[u].pc.Done?
  }

  /** The task will ack its entry, unless its pipeline asks for a retry. */
  predicate WillAck(pc: Pc) {
    pc.AtGuard? || pc.AtBegin? || pc.AtStart? || pc.Executing? || pc.AtBury? || pc.AtAckDead? || pc.AtAck?
  }

  /** The pending entries once the task is through. */
  function Remaining(s: State, t: TaskId): set<EntryId>
    requires t < |s.tasks|
  {
    if WillAck(s.tasks[t].pc) then s.pel.Keys - {s.tasks[t].entry} else s.pel.Keys
  }

  predicate OnItsWay(pc: Pc) {
    WillAck(pc) || pc.AtFail? || pc.Done?
  }

  /** What the next step of such a task changes: its own place, and the pending list at its ack. */
  lemma AloneChange(c: Config, s: State, t: TaskId)
    requires t < |s.tasks| && (WillAck(s.tasks[t].pc) || s.tasks[t].pc.AtFail?)
    ensures var step := NextStep(s, t);
            && Enabled(c, s, step) && Healthy(s, step)
            && var d := ChangeOf(c, s, step);
               && d.publish.None? && d.cursor == s.cursor && d.submitting == s.submitting
               && d.move.Goto? && d.move.task == t && OnItsWay(d.move.pc)
               && StepsLeft(d.move.pc) < StepsLeft(s.tasks[t].pc)
               && (if s.tasks[t].pc.AtAck? || s.tasks[t].pc.AtAckDead?
                   then d.pel == s.pel - {s.tasks[t].entry} && !WillAck(d.move.pc)
                   else d.pel == s.pel && (WillAck(d.move.pc) <==> WillAck(s.tasks[t].pc)))
  {
  }

  lemma AloneStep(c: Config, s: State, t: TaskId)
    requires Alone(s, t) && (WillAck(s.tasks[t].pc) || s.tasks[t].pc.AtFail?)
    ensures var step := NextStep(s, t);
            && Enabled(c, s, step) && Healthy(s, step)
            && var s' := Apply(c, s, step);
               && Alone(s', t) && Remaining(s', t) == Remaining(s, t)
               && OnItsWay(s'.tasks[t].pc)
               && StepsLeft(s'.tasks[t].pc) < StepsLeft(s.tasks[t].pc)
  {
    AloneChange(c, s, t);
  }

  lemma {:induction false} FinishAlone(c: Config, s: State, t: TaskId) returns (steps: seq<Step>)
    requires Alone(s, t) && OnItsWay(s.tasks[t].pc)
    ensures Legal(c, s, steps) && HealthyRun(c, s, steps)
    ensures Quiescent(Exec(c, s, steps)) && Exec(c, s, steps).pel.Keys == Remaining(s, t)
    decreases StepsLeft(s.tasks[t].pc)
  {
    if s.tasks[t].pc.Done? {
      steps := [];
    } else {
      AloneStep(c, s, t);
      var rest := FinishAlone(c, Apply(c, s, NextStep(s, t)), t);
      Prepend(c, s, NextStep(s, t), rest);
      steps := [NextStep(s, t)] + rest;
    }
  }

  /** At rest, any pending entry can be reclaimed, and its task acks it. */
  lemma ResolveEntry(c: Config, s: State, e: EntryId) returns (steps: seq<Step>)
    requires Intact(c, s) && Quiescent(s) && e in s.pel
    ensures Legal(c, s, steps) && HealthyRun(c, s, steps)
    ensures Quiescent(Exec(c, s, steps)) && Exec(c, s, steps).pel.Keys == s.pel.Keys - {e}
  {
    var step := Reclaim(0, e);
    var s' := Apply(c, s, step);
    assert !InFlight(s, 0, e);
    assert s'.tasks == s.tasks + [Task(0, e, s.stream[e], ReclaimPc(c, s.pel[e].deliveries + 1))];
    assert s'.pel.Keys == s.pel.Keys;
    var rest := FinishAlone(c, s', |s.tasks|);
    Prepend(c, s, step, rest);
    steps := [step] + rest;
  }

  lemma {:induction false} ResolveAll(c: Config, s: State) returns (steps: seq<Step>)
    requires Intact(c, s) && Quiescent(s)
    ensures Legal(c, s, steps) && HealthyRun(c, s, steps)
    ensures Quiescent(Exec(c, s, steps)) && Exec(c, s, steps).pel == map[]
    decreases |s.pel.Keys|
  {
    if e :| e in s.pel {
      var first := ResolveEntry(c, s, e);
      var s' := Exec(c, s, first);
      RunKeepsIntact(c, s, first);
      Sums.SubsetSize(s'.pel.Keys, s.pel.Keys);
      var rest := ResolveAll(c, s');
      HealthyConcat(c, s, first, rest);
      steps := first + rest;
    } else {
      steps := [];
    }
  }

  // ------------------------------------------------------------- main result

  /** Nothing is left to publish, deliver, reclaim or finish, and every published job has ended or is dead-lettered. */
  ghost predicate Recovered(s: State) {
    && Quiescent(s) && s.pel == map[]
    && forall e :: 0 <= e < |s.stream| ==> IsTerminalRow(s, s.stream[e].jobId) || DeadLettered(s, s.stream[e].jobId)
  }

  lemma NothingQueued(s: State, j: JobId)
    requires Quiescent(s) && s.pel == map[]
    ensures !StillQueued(s, j)
  {
  }

  lemma RestIsRecovered(c: Config, s: State)
    requires Intact(c, s) && AcksSettled(s) && Quiescent(s) && s.pel == map[]
    ensures Recovered(s)
  {
    forall e | 0 <= e < |s.stream| ensures IsTerminalRow(s, s.stream[e].jobId) || DeadLettered(s, s.stream[e].jobId) {
      FollowSuccessors(c, s, e);
      NothingQueued(s, s.stream[e].jobId);
    }
  }

  /** From every reachable state, some continuation without further faults resolves everything. */
  lemma EveryStateRecovers(c: Config, steps: seq<Step>) returns (rest: seq<Step>)
    requires Legal(c, INITIAL, steps)
    ensures var s := Exec(c, INITIAL, steps);
            Legal(c, s, rest) && HealthyRun(c, s, rest) && Recovered(Exec(c, s, rest))
  {
    var s := Exec(c, INITIAL, steps);
    RunKeepsInv(c, INITIAL, steps);
    var first := ComeToRest(c, s);
    var last := ResolveAll(c, Exec(c, s, first));
    HealthyConcat(c, s, first, last);
    rest := first + last;
    RunKeepsInv(c, s, rest);
    RestIsRecovered(c, Exec(c, s, rest));
  }
}
