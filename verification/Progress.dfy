/**
 Fault-free systems finish. Every step of a fault-free run other than a new
 submission, or a consumer claiming its own entry again, uses up effort; a
 submission brings a fixed amount of it. So the run comes to rest, and a system
 at rest has finished every job (`LockStep.QuiescentMeansFinished`).
 */
module Progress {
  import opened Wrappers
  import opened Jobs
  import opened Messages
  import opened Protocol
  import opened Integrity
  import opened LockStep
  import opened Sums
  import Work

  /** Steps a task can still take on its own pointer. */
  function StepsLeft(pc: Pc): nat {
    match pc
    case AtClaimed => 8
    case AtGuard => 7
    case AtBegin => 6
    case AtStart(_) => 5
    case Executing(_) => 4
    case AtRequeue => 3
    case AtBury(_) => 3
    case AtCommit(_) => 2
    case AtRepublish => 2
    case AtAckDead(_) => 2
    case AtFail(_) => 1
    case AtAck => 1
    case Done => 0
  }

  /** The task may still publish a successor. */
  predicate MayRetry(pc: Pc) {
    pc.AtClaimed? || pc.AtGuard? || pc.AtBegin? || pc.AtStart? || pc.Executing? || pc.AtRequeue? || pc.AtRepublish?
  }

  /** Steps the successors of a pointer can take: a read and seven task steps per attempt. */
  function ChainEffort(c: Config, m: JobMessage): nat {
    8 * Work.Later(c, m)
  }

  function TaskEffort(c: Config, k: Task): nat {
    StepsLeft(k.pc) + if MayRetry(k.pc) then ChainEffort(c, k.msg) else 0
  }

  function EntryEffort(c: Config, s: State, e: EntryId): nat
    requires e < |s.stream|
  {
    if e >= s.cursor then 8 + ChainEffort(c, s.stream[e]) else 0
  }

  /** What one submission can cause: its publish, then a read and seven steps per attempt. */
  function JobEffort(c: Config): nat {
    1 + 8 * LastAttempt(c)
  }

  function TaskEfforts(c: Config, tasks: seq<Task>): (ws: seq<nat>)
    ensures |ws| == |tasks|
  {
    seq(|tasks|, t requires 0 <= t < |tasks| => TaskEffort(c, tasks[t]))
  }

  function EntryEfforts(c: Config, s: State): (ws: seq<nat>)
    ensures |ws| == |s.stream|
  {
    seq(|s.stream|, e requires 0 <= e < |s.stream| => EntryEffort(c, s, e))
  }

  function Effort(c: Config, s: State): nat {
    |s.submitting| * JobEffort(c) + Sum(EntryEfforts(c, s)) + Sum(TaskEfforts(c, s.tasks))
  }

  // ------------------------------------------------------------ each summand

  lemma EffortOfMove(c: Config, s: State, d: Change)
    requires d.move.Goto? && d.move.task < |s.tasks|
    ensures Sum(TaskEfforts(c, MoveTasks(s, d.move))) + TaskEffort(c, s.tasks[d.move.task])
            == Sum(TaskEfforts(c, s.tasks)) + TaskEffort(c, s.tasks[d.move.task].(pc := d.move.pc))
  {
    var t := d.move.task;
    var v := TaskEffort(c, s.tasks[t].(pc := d.move.pc));
    assert TaskEfforts(c, MoveTasks(s, d.move)) == TaskEfforts(c, s.tasks)[t := v];
    SumUpdate(TaskEfforts(c, s.tasks), t, v);
  }

  lemma EffortOfSpawn(c: Config, s: State, d: Change)
    requires d.move.Spawn? && d.move.entry < |s.stream|
    ensures Sum(TaskEfforts(c, MoveTasks(s, d.move))) == Sum(TaskEfforts(c, s.tasks))
            + TaskEffort(c, Task(d.move.consumer, d.move.entry, s.stream[d.move.entry], d.move.pc))
  {
    var v := TaskEffort(c, Task(d.move.consumer, d.move.entry, s.stream[d.move.entry], d.move.pc));
    assert TaskEfforts(c, MoveTasks(s, d.move)) == TaskEfforts(c, s.tasks) + [v];
    SumAppend(TaskEfforts(c, s.tasks), v);
  }

  lemma EffortOfStream(c: Config, s: State, s': State)
    requires s'.stream == s.stream && s'.cursor == s.cursor
    ensures EntryEfforts(c, s') == EntryEfforts(c, s)
  {
  }

  lemma EffortOfAppend(c: Config, s: State, s': State, m: JobMessage)
    requires s'.stream == s.stream + [m] && s'.cursor == s.cursor <= |s.stream|
    ensures Sum(EntryEfforts(c, s')) == Sum(EntryEfforts(c, s)) + 8 + ChainEffort(c, m)
  {
    assert EntryEfforts(c, s') == EntryEfforts(c, s) + [8 + ChainEffort(c, m)];
    SumAppend(EntryEfforts(c, s), 8 + ChainEffort(c, m));
  }

  lemma EffortOfRead(c: Config, s: State, s': State)
    requires s'.stream == s.stream && s.cursor < |s.stream| && s'.cursor == s.cursor + 1
    ensures Sum(EntryEfforts(c, s')) + 8 + ChainEffort(c, s.stream[s.cursor]) == Sum(EntryEfforts(c, s))
  {
    assert EntryEfforts(c, s') == EntryEfforts(c, s)[s.cursor := 0];
    SumUpdate(EntryEfforts(c, s), s.cursor, 0);
  }

  // --------------------------------------------------------------- each step

  /** Steps that get the system on with what it has. */
  predicate Works(step: Step) {
    !step.Submit? && !step.Reclaim?
  }

  lemma PublishWorks(c: Config, s: State, j: JobId)
    requires Intact(c, s) && j in s.submitting && j in s.rows
    ensures Effort(c, Perform(s, PublishChange(s, j, Published))) < Effort(c, s)
  {
    var d := PublishChange(s, j, Published);
    EffortOfAppend(c, s, Perform(s, d), FirstDelivery(s.rows[j]));
    OneKeyLess(s.submitting, j, JobEffort(c));
    assert MoveTasks(s, d.move) == s.tasks;
  }

  lemma OneKeyLess(m: map<JobId, nat>, j: JobId, k: nat)
    requires j in m
    ensures |m - {j}| * k + k == |m| * k
  {
    assert (m - {j}).Keys == m.Keys - {j};
    assert |m - {j}| == |(m - {j}).Keys| && |m| == |m.Keys|;
    OneLess(|m|, k);
  }

  lemma OneMoreKey(m: map<JobId, nat>, j: JobId, n: nat, k: nat)
    requires j !in m
    ensures |m[j := n]| * k == |m| * k + k
  {
    assert m[j := n] - {j} == m;
    OneKeyLess(m[j := n], j, k);
  }

  lemma ReadWorks(c: Config, s: State, k: ConsumerId)
    requires s.cursor < |s.stream|
    ensures Effort(c, Perform(s, ReadChange(s, k, true))) < Effort(c, s)
  {
    var d := ReadChange(s, k, true);
    EffortOfRead(c, s, Perform(s, d));
    EffortOfSpawn(c, s, d);
  }

  lemma RepublishWorks(c: Config, s: State, t: TaskId)
    requires t < |s.tasks| && s.tasks[t].pc.AtRepublish? && s.cursor <= |s.stream|
    requires 1 <= s.tasks[t].msg.attempt < LastAttempt(c)
    ensures var d := Nothing(s).(publish := Some(s.tasks[t].msg.NextAttempt()), move := Goto(t, AtAck));
            Effort(c, Perform(s, d)) < Effort(c, s)
  {
    var d := Nothing(s).(publish := Some(s.tasks[t].msg.NextAttempt()), move := Goto(t, AtAck));
    EffortOfAppend(c, s, Perform(s, d), s.tasks[t].msg.NextAttempt());
    EffortOfMove(c, s, d);
  }

  /** The program counter only moves towards its end, and a pointer given up is not retried. */
  predicate Descends(from: Pc, to: Pc) {
    StepsLeft(to) < StepsLeft(from) && (MayRetry(to) ==> MayRetry(from))
  }

  lemma MoveWorks(c: Config, s: State, d: Change)
    requires d.move.Goto? && d.move.task < |s.tasks| && Descends(s.tasks[d.move.task].pc, d.move.pc)
    requires d.publish.None? && d.cursor == s.cursor && d.submitting == s.submitting
    ensures Effort(c, Perform(s, d)) < Effort(c, s)
  {
    EffortOfMove(c, s, d);
    EffortOfStream(c, s, Perform(s, d));
  }

  /** A fault-free step, or the count that follows a claim. */
  predicate Sound(s: State, step: Step) {
    FaultFree(s, step) || step.CountDeliveries?
  }

  lemma TaskDescends(c: Config, s: State, step: Step)
    requires Enabled(c, s, step) && Sound(s, step) && OfTask(step) && !step.Republish?
    ensures var d := ChangeOf(c, s, step);
            && d.move.Goto? && d.move.task == step.task && Descends(s.tasks[step.task].pc, d.move.pc)
            && d.publish.None? && d.cursor == s.cursor && d.submitting == s.submitting
  {
  }

  lemma StepWorks(c: Config, s: State, step: Step)
    requires Intact(c, s) && Enabled(c, s, step) && Sound(s, step) && Works(step)
    ensures Effort(c, Apply(c, s, step)) < Effort(c, s)
  {
    if step.Publish? {
      PublishWorks(c, s, step.job);
    } else if step.Read? {
      ReadWorks(c, s, step.consumer);
    } else if step.Republish? {
      assert TaskOk(c, s, s.tasks[step.task]) && PointerOk(c, s.rows, s.tasks[step.task].msg);
      RepublishWorks(c, s, step.task);
    } else {
      TaskDescends(c, s, step);
      MoveWorks(c, s, ChangeOf(c, s, step));
    }
  }

  lemma SubmissionsEffort(c: Config, s: State, d: Change)
    requires d.move.Stay? && d.publish.None? && d.cursor == s.cursor
    ensures Effort(c, Perform(s, d)) + |s.submitting| * JobEffort(c) == Effort(c, s) + |d.submitting| * JobEffort(c)
  {
    EffortOfStream(c, s, Perform(s, d));
  }

  lemma SubmitAdds(c: Config, s: State, step: Step)
    requires Intact(c, s) && Enabled(c, s, step) && step.Submit?
    ensures Effort(c, Apply(c, s, step)) == Effort(c, s) + JobEffort(c)
  {
    var d := Nothing(s).(write := Some(NewJob(step.job, step.jobType, step.payload)),
      submitting := s.submitting[step.job := step.tries]);
    assert step.job !in s.submitting;
    assert Apply(c, s, step) == Perform(s, d);
    SubmissionsEffort(c, s, d);
    OneMoreKey(s.submitting, step.job, step.tries, JobEffort(c));
  }

  lemma StepRests(c: Config, s: State, step: Step)
    requires Intact(c, s) && Enabled(c, s, step) && FaultFree(s, step) && !Works(step)
    ensures Effort(c, Apply(c, s, step)) == Effort(c, s) + if step.Submit? then JobEffort(c) else 0
  {
    if step.Submit? {
      SubmitAdds(c, s, step);
    } else {
      SubmissionsEffort(c, s, ChangeOf(c, s, step));
    }
  }

  // ------------------------------------------------------------ main results

  function WorkSteps(steps: seq<Step>): nat {
    if steps == [] then 0 else (if Works(steps[0]) then 1 else 0) + WorkSteps(steps[1..])
  }

  function Submissions(steps: seq<Step>): nat {
    if steps == [] then 0 else (if steps[0].Submit? then 1 else 0) + Submissions(steps[1..])
  }

  /** The effort new submissions bring. */
  function Brought(c: Config, steps: seq<Step>): nat {
    if steps == [] then 0 else (if steps[0].Submit? then JobEffort(c) else 0) + Brought(c, steps[1..])
  }

  lemma {:induction false} BroughtBySubmissions(c: Config, steps: seq<Step>)
    ensures Brought(c, steps) == Submissions(steps) * JobEffort(c)
  {
    if steps != [] {
      BroughtBySubmissions(c, steps[1..]);
      OneLess(Submissions(steps[1..]) + 1, JobEffort(c));
    }
  }

  lemma {:induction false} RunUsesEffort(c: Config, s: State, steps: seq<Step>)
    requires Intact(c, s) && Legal(c, s, steps) && FaultFreeRun(c, s, steps)
    ensures WorkSteps(steps) + Effort(c, Exec(c, s, steps)) <= Effort(c, s) + Brought(c, steps)
    decreases |steps|
  {
    if steps != [] {
      StepUsesEffort(c, s, steps[0]);
      RunUsesEffort(c, Apply(c, s, steps[0]), steps[1..]);
    }
  }

  lemma StepUsesEffort(c: Config, s: State, step: Step)
    requires Intact(c, s) && Enabled(c, s, step) && FaultFree(s, step)
    ensures Intact(c, Apply(c, s, step))
    ensures (if Works(step) then 1 else 0) + Effort(c, Apply(c, s, step))
            <= Effort(c, s) + if step.Submit? then JobEffort(c) else 0
  {
    StepKeepsIntegrity(c, s, step);
    if Works(step) { StepWorks(c, s, step); } else { StepRests(c, s, step); }
  }

  /** A fault-free run makes at most 1 + 8M steps per submission, M being the attempt limit. */
  lemma FaultFreeWorkIsBounded(c: Config, steps: seq<Step>)
    requires Legal(c, INITIAL, steps) && FaultFreeRun(c, INITIAL, steps)
    ensures WorkSteps(steps) <= Submissions(steps) * (1 + 8 * LastAttempt(c))
  {
    NoEffortYet(c);
    RunUsesEffort(c, INITIAL, steps);
    BroughtBySubmissions(c, steps);
  }

  lemma NoEffortYet(c: Config)
    ensures Intact(c, INITIAL) && Effort(c, INITIAL) == 0
  {
    assert EntryEfforts(c, INITIAL) == [] && TaskEfforts(c, INITIAL.tasks) == [];
  }

  /** From wherever it is, a fault-free system can go on to the point where every job is finished. */
  lemma {:induction false} EveryRunCanFinish(c: Config, s: State) returns (steps: seq<Step>)
    requires InStep(c, s)
    ensures Legal(c, s, steps) && FaultFreeRun(c, s, steps)
    ensures Quiescent(Exec(c, s, steps)) && |steps| <= Effort(c, s)
    decreases Effort(c, s)
  {
    if Quiescent(s) {
      steps := [];
    } else {
      var step := SomeStep(c, s);
      StepWorks(c, s, step);
      StepStaysInStep(c, s, step);
      var rest := EveryRunCanFinish(c, Apply(c, s, step));
      steps := [step] + rest;
      assert steps[1..] == rest;
    }
  }

  /** However a fault-free run went so far, it can go on until every job in it is finished. */
  lemma EveryJobCanFinish(c: Config, steps: seq<Step>) returns (rest: seq<Step>)
    requires Legal(c, INITIAL, steps) && FaultFreeRun(c, INITIAL, steps)
    ensures var s := Exec(c, INITIAL, steps);
            && Legal(c, s, rest) && FaultFreeRun(c, s, rest)
            && |rest| <= Effort(c, s) && AllFinished(c, Exec(c, s, rest))
  {
    var s := Exec(c, INITIAL, steps);
    RunStaysInStep(c, INITIAL, steps);
    rest := EveryRunCanFinish(c, s);
    RunStaysInStep(c, s, rest);
    RestMeansFinished(c, Exec(c, s, rest));
  }
}
