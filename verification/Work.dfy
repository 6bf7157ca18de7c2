/**
 Bounded work: under any schedule of crashes, reclaims and failures, one first
 publish of a job leads to at most D + D^2 + ... + D^M pipeline starts, where D
 is the delivery limit and M the attempt limit.

 The potential of a state charges every pointer with the starts it can still
 cause: an undelivered pointer D dispatches, a pending one those it has left,
 each dispatch one start plus the whole budget of one successor pointer.

 One race is charged separately. Claiming an entry, reading its delivery count
 and dispatching it are three calls; an entry acked after its claim reports no
 deliveries and is dispatched whatever its history. Each such stale count adds
 at most one more budget.
 */
module Work {
  import opened Wrappers
  import opened Jobs
  import opened Messages
  import opened Protocol
  import opened Integrity
  import opened Execution
  import opened Sums

  /** The delivery limit as the code applies it: a first delivery is never counted against it. */
  function DeliveryLimit(c: Config): nat {
    if c.maxDeliveryCount < 1 then 1 else c.maxDeliveryCount
  }

  /** The two limits: at least 1, and the configured numbers from there on. */
  lemma LimitsForm(c: Config)
    ensures LastAttempt(c) >= 1 && LastAttempt(c) >= c.maxAttempts
            && (LastAttempt(c) == 1 || LastAttempt(c) == c.maxAttempts)
    ensures DeliveryLimit(c) >= 1 && DeliveryLimit(c) >= c.maxDeliveryCount
            && (DeliveryLimit(c) == 1 || DeliveryLimit(c) == c.maxDeliveryCount)
  {
  }

  /** Attempts that can follow pointer `m`. */
  function Later(c: Config, m: JobMessage): nat {
    if m.attempt < LastAttempt(c) then LastAttempt(c) - m.attempt else 0
  }

  /** Starts the successors of one dispatch can cause. */
  function ChainBudget(c: Config, m: JobMessage): nat {
    PowerSum(DeliveryLimit(c), Later(c, m))
  }

  function DispatchesLeft(c: Config, s: State, e: EntryId): nat {
    if e >= s.cursor then DeliveryLimit(c)
    else if e in s.pel && s.pel[e].deliveries < DeliveryLimit(c) then DeliveryLimit(c) - s.pel[e].deliveries
    else 0
  }

  function EntryBudget(c: Config, s: State, j: JobId, e: EntryId): nat
    requires e < |s.stream|
  {
    if s.stream[e].jobId == j then DispatchesLeft(c, s, e) * (1 + ChainBudget(c, s.stream[e])) else 0
  }

  /** A claimed entry whose count, if read now, would not exceed the limit. */
  predicate Admitted(c: Config, pel: map<EntryId, Claim>, e: EntryId) {
    e in pel && pel[e].deliveries <= DeliveryLimit(c)
  }

  function PcBudget(c: Config, m: JobMessage, pc: Pc, admitted: bool): nat {
    if pc.AtGuard? || pc.AtBegin? || (pc.AtClaimed? && admitted) then 1 + ChainBudget(c, m)
    else if pc.AtStart? || pc.Executing? || pc.AtRequeue? || pc.AtRepublish? then ChainBudget(c, m)
    else 0
  }

  function TaskBudget(c: Config, pel: map<EntryId, Claim>, j: JobId, k: Task): nat {
    if k.msg.jobId == j then PcBudget(c, k.msg, k.pc, Admitted(c, pel, k.entry)) else 0
  }

  function EntryBudgets(c: Config, s: State, j: JobId): (ws: seq<nat>)
    ensures |ws| == |s.stream|
  {
    seq(|s.stream|, e requires 0 <= e < |s.stream| => EntryBudget(c, s, j, e))
  }

  function TaskBudgets(c: Config, s: State, j: JobId): (ws: seq<nat>)
    ensures |ws| == |s.tasks|
  {
    seq(|s.tasks|, t requires 0 <= t < |s.tasks| => TaskBudget(c, s.pel, j, s.tasks[t]))
  }

  function Potential(c: Config, s: State, j: JobId): nat {
    Sum(EntryBudgets(c, s, j)) + Sum(TaskBudgets(c, s, j))
  }

  // ------------------------------------------------------------ entry budgets

  lemma EntryBudgetsSame(c: Config, s: State, s': State, j: JobId)
    requires s'.stream == s.stream && s'.cursor == s.cursor && s'.pel == s.pel
    ensures EntryBudgets(c, s', j) == EntryBudgets(c, s, j)
  {
  }

  /** Delivery bookkeeping for entry `e` only. */
  lemma EntryBudgetsAt(c: Config, s: State, s': State, j: JobId, e: EntryId)
    requires e < |s.stream| && s'.stream == s.stream
    requires forall i :: 0 <= i < |s.stream| && i != e ==> DispatchesLeft(c, s', i) == DispatchesLeft(c, s, i)
    ensures Sum(EntryBudgets(c, s', j)) + EntryBudget(c, s, j, e) ==
            Sum(EntryBudgets(c, s, j)) + EntryBudget(c, s', j, e)
  {
    var ws := EntryBudgets(c, s, j);
    assert EntryBudgets(c, s', j) == ws[e := EntryBudget(c, s', j, e)];
    SumUpdate(ws, e, EntryBudget(c, s', j, e));
  }

  /** A pointer appended behind the cursor. */
  lemma EntryBudgetsAppend(c: Config, s: State, s': State, j: JobId, m: JobMessage)
    requires s.cursor <= |s.stream|
    requires s'.stream == s.stream + [m] && s'.cursor == s.cursor && s'.pel == s.pel
    ensures Sum(EntryBudgets(c, s', j)) == Sum(EntryBudgets(c, s, j)) + EntryBudget(c, s', j, |s.stream|)
  {
    var ws := EntryBudgets(c, s, j);
    assert EntryBudgets(c, s', j) == ws + [EntryBudget(c, s', j, |s.stream|)];
    SumAppend(ws, EntryBudget(c, s', j, |s.stream|));
  }

  // ------------------------------------------------------------- task budgets

  /** The group changes under the tasks: no claimed entry becomes admitted again. */
  predicate NoneAdmitted(c: Config, pel: map<EntryId, Claim>, pel': map<EntryId, Claim>, tasks: seq<Task>) {
    forall t :: 0 <= t < |tasks| && Admitted(c, pel', tasks[t].entry) ==> Admitted(c, pel, tasks[t].entry)
  }

  function BudgetsUnder(c: Config, pel: map<EntryId, Claim>, j: JobId, tasks: seq<Task>): (ws: seq<nat>)
    ensures |ws| == |tasks|
  {
    seq(|tasks|, t requires 0 <= t < |tasks| => TaskBudget(c, pel, j, tasks[t]))
  }

  lemma BudgetsShrink(c: Config, pel: map<EntryId, Claim>, pel': map<EntryId, Claim>, j: JobId, tasks: seq<Task>)
    requires NoneAdmitted(c, pel, pel', tasks)
    ensures Sum(BudgetsUnder(c, pel', j, tasks)) <= Sum(BudgetsUnder(c, pel, j, tasks))
  {
    SumMonotone(BudgetsUnder(c, pel', j, tasks), BudgetsUnder(c, pel, j, tasks));
  }

  lemma TaskBudgetsGoto(c: Config, s: State, d: Change, j: JobId)
    requires d.move.Goto? && d.move.task < |s.tasks| && NoneAdmitted(c, s.pel, d.pel, s.tasks)
    ensures var k := s.tasks[d.move.task];
            Sum(TaskBudgets(c, Perform(s, d), j)) + TaskBudget(c, d.pel, j, k)
            <= Sum(TaskBudgets(c, s, j)) + TaskBudget(c, d.pel, j, k.(pc := d.move.pc))
  {
    var t := d.move.task;
    var v := TaskBudget(c, d.pel, j, s.tasks[t].(pc := d.move.pc));
    var ws := BudgetsUnder(c, d.pel, j, s.tasks);
    BudgetsShrink(c, s.pel, d.pel, j, s.tasks);
    assert TaskBudgets(c, s, j) == BudgetsUnder(c, s.pel, j, s.tasks);
    assert TaskBudgets(c, Perform(s, d), j) == ws[t := v];
    SumUpdate(ws, t, v);
  }

  lemma TaskBudgetsSpawn(c: Config, s: State, d: Change, j: JobId)
    requires d.move.Spawn? && d.move.entry < |s.stream| && NoneAdmitted(c, s.pel, d.pel, s.tasks)
    ensures var k := Task(d.move.consumer, d.move.entry, s.stream[d.move.entry], d.move.pc);
            Sum(TaskBudgets(c, Perform(s, d), j)) <= Sum(TaskBudgets(c, s, j)) + TaskBudget(c, d.pel, j, k)
  {
    var v := TaskBudget(c, d.pel, j, Task(d.move.consumer, d.move.entry, s.stream[d.move.entry], d.move.pc));
    var ws := BudgetsUnder(c, d.pel, j, s.tasks);
    BudgetsShrink(c, s.pel, d.pel, j, s.tasks);
    assert TaskBudgets(c, s, j) == BudgetsUnder(c, s.pel, j, s.tasks);
    assert TaskBudgets(c, Perform(s, d), j) == ws + [v];
    SumAppend(ws, v);
  }

  lemma TaskBudgetsStay(c: Config, s: State, d: Change, j: JobId)
    requires d.move.Stay? && NoneAdmitted(c, s.pel, d.pel, s.tasks)
    ensures Sum(TaskBudgets(c, Perform(s, d), j)) <= Sum(TaskBudgets(c, s, j))
  {
    BudgetsShrink(c, s.pel, d.pel, j, s.tasks);
    assert TaskBudgets(c, s, j) == BudgetsUnder(c, s.pel, j, s.tasks);
    assert TaskBudgets(c, Perform(s, d), j) == BudgetsUnder(c, d.pel, j, s.tasks);
  }

  // ------------------------------------------------------------ one step pays

  /** The count of a claimed entry of `j` that was acked since its claim. */
  predicate CountsStale(s: State, step: Step, j: JobId) {
    && step.CountDeliveries? && step.task < |s.tasks|
    && s.tasks[step.task].msg.jobId == j && s.tasks[step.task].entry !in s.pel
  }

  /** The step appends a first pointer of `j`. */
  predicate PublishesFirst(step: Step, j: JobId) {
    step.Publish? && step.job == j && (step.published.Published? || step.published.appended)
  }

  function StartsOf(s: State, step: Step, j: JobId): nat {
    if StartsExecution(s, step, j) then 1 else 0
  }

  function FirstsOf(step: Step, j: JobId): nat {
    if PublishesFirst(step, j) then 1 else 0
  }

  function StalesOf(s: State, step: Step, j: JobId): nat {
    if CountsStale(s, step, j) then 1 else 0
  }

  function JobBudget(c: Config): nat {
    PowerSum(DeliveryLimit(c), LastAttempt(c))
  }

  lemma ReadPays(c: Config, s: State, step: Step, j: JobId)
    requires Intact(c, s) && Enabled(c, s, step) && step.Read?
    ensures Potential(c, Apply(c, s, step), j) <= Potential(c, s, j)
  {
    var d := ReadChange(s, step.consumer, step.received);
    var e, m := s.cursor, s.stream[s.cursor];
    assert DispatchesLeft(c, s, e) == DeliveryLimit(c) == DispatchesLeft(c, Perform(s, d), e) + 1;
    OneLess(DeliveryLimit(c), 1 + ChainBudget(c, m));
    EntryBudgetsAt(c, s, Perform(s, d), j, e);
    forall t | 0 <= t < |s.tasks| ensures s.tasks[t].entry != e { assert TaskOk(c, s, s.tasks[t]); }
    if step.received { TaskBudgetsSpawn(c, s, d, j); } else { TaskBudgetsStay(c, s, d, j); }
  }

  /** What a claim spawns: nothing, or a task that the claimed delivery pays for. */
  predicate ClaimMove(c: Config, s: State, k: ConsumerId, e: EntryId, move: Move)
    requires e in s.pel
  {
    || move.Stay?
    || move == Spawn(k, e, AtClaimed)
    || move == Spawn(k, e, ReclaimPc(c, s.pel[e].deliveries + 1))
  }

  lemma ClaimPays(c: Config, s: State, k: ConsumerId, e: EntryId, d: Change, j: JobId)
    requires e in s.pel && e < s.cursor <= |s.stream|
    requires ClaimMove(c, s, k, e, d.move) && d == ClaimChange(s, k, e).(move := d.move)
    ensures Potential(c, Perform(s, d), j) <= Potential(c, s, j)
  {
    EntryBudgetsAt(c, s, Perform(s, d), j, e);
    if DispatchesLeft(c, s, e) >= 1 {
      assert DispatchesLeft(c, s, e) == DispatchesLeft(c, Perform(s, d), e) + 1;
      OneLess(DispatchesLeft(c, s, e), 1 + ChainBudget(c, s.stream[e]));
    }
    if d.move.Stay? { TaskBudgetsStay(c, s, d, j); } else { TaskBudgetsSpawn(c, s, d, j); }
  }

  lemma ReclaimPays(c: Config, s: State, step: Step, j: JobId)
    requires Intact(c, s) && Enabled(c, s, step) && (step.Reclaim? || step.ClaimEntry?)
    ensures Potential(c, Apply(c, s, step), j) <= Potential(c, s, j)
  {
    ClaimPays(c, s, step.consumer, step.entry, ChangeOf(c, s, step), j);
  }

  /** An undelivered pointer's budget is the power sum of the attempts it opens. */
  lemma FreshPointerBudget(c: Config, s: State, j: JobId, e: EntryId)
    requires s.cursor <= e < |s.stream| && s.stream[e].jobId == j && 1 <= s.stream[e].attempt <= LastAttempt(c)
    ensures EntryBudget(c, s, j, e) == PowerSum(DeliveryLimit(c), Later(c, s.stream[e]) + 1)
  {
    Horner(DeliveryLimit(c), Later(c, s.stream[e]) + 1);
  }

  lemma PublishPays(c: Config, s: State, step: Step, j: JobId)
    requires Intact(c, s) && Enabled(c, s, step) && step.Publish?
    ensures Potential(c, Apply(c, s, step), j) <= Potential(c, s, j) + FirstsOf(step, j) * JobBudget(c)
  {
    var d := PublishChange(s, step.job, step.published);
    var s' := Perform(s, d);
    TaskBudgetsStay(c, s, d, j);
    if d.publish.Some? {
      EntryBudgetsAppend(c, s, s', j, d.publish.value);
      if step.job == j { FreshPointerBudget(c, s', j, |s.stream|); }
    } else {
      EntryBudgetsSame(c, s, s', j);
    }
  }

  lemma RepublishPays(c: Config, s: State, step: Step, j: JobId)
    requires Intact(c, s) && Enabled(c, s, step) && step.Republish?
    ensures Potential(c, Apply(c, s, step), j) <= Potential(c, s, j)
  {
    var k := s.tasks[step.task];
    assert TaskOk(c, s, k) && PointerOk(c, s.rows, k.msg);
    SuccessorPays(c, s, step.task, j);
  }

  /** The task's own chain budget is exactly the budget of the successor it publishes. */
  lemma SuccessorPays(c: Config, s: State, t: TaskId, j: JobId)
    requires t < |s.tasks| && s.tasks[t].pc.AtRepublish? && s.cursor <= |s.stream|
    requires 1 <= s.tasks[t].msg.attempt < LastAttempt(c)
    ensures var d := Nothing(s).(publish := Some(s.tasks[t].msg.NextAttempt()), move := Goto(t, AtAck));
            Potential(c, Perform(s, d), j) <= Potential(c, s, j)
  {
    var m := s.tasks[t].msg;
    var d := Nothing(s).(publish := Some(m.NextAttempt()), move := Goto(t, AtAck));
    var s' := Perform(s, d);
    TaskBudgetsGoto(c, s, d, j);
    EntryBudgetsAppend(c, s, s', j, m.NextAttempt());
    if m.jobId == j { FreshPointerBudget(c, s', j, |s.stream|); }
  }

  lemma AckPays(c: Config, s: State, step: Step, j: JobId)
    requires Intact(c, s) && Enabled(c, s, step) && step.Ack?
    ensures Potential(c, Apply(c, s, step), j) <= Potential(c, s, j)
  {
    assert TaskOk(c, s, s.tasks[step.task]);
    RemovalPays(c, s, step.task, AfterAck(s.tasks[step.task].pc), j);
  }

  /** An entry leaves the pending list: it has no dispatch left. */
  lemma RemovalPays(c: Config, s: State, t: TaskId, pc: Pc, j: JobId)
    requires t < |s.tasks| && s.tasks[t].entry < s.cursor <= |s.stream| && PcBudget(c, s.tasks[t].msg, pc, false) == 0
    requires !pc.AtClaimed? && !s.tasks[t].pc.AtClaimed?
    ensures var d := Nothing(s).(pel := s.pel - {s.tasks[t].entry}, move := Goto(t, pc));
            Potential(c, Perform(s, d), j) <= Potential(c, s, j)
  {
    var e := s.tasks[t].entry;
    var d := Nothing(s).(pel := s.pel - {e}, move := Goto(t, pc));
    TaskBudgetsGoto(c, s, d, j);
    EntryBudgetsAt(c, s, Perform(s, d), j, e);
    assert DispatchesLeft(c, Perform(s, d), e) == 0;
  }

  /** A task that moves without touching the group or the stream changes the potential by its own budget alone. */
  lemma GotoPays(c: Config, s: State, d: Change, j: JobId)
    requires d.move.Goto? && d.move.task < |s.tasks| && d.pel == s.pel && d.cursor == s.cursor && d.publish.None?
    ensures Potential(c, Perform(s, d), j) + TaskBudget(c, s.pel, j, s.tasks[d.move.task])
            <= Potential(c, s, j) + TaskBudget(c, s.pel, j, s.tasks[d.move.task].(pc := d.move.pc))
  {
    TaskBudgetsGoto(c, s, d, j);
    EntryBudgetsSame(c, s, Perform(s, d), j);
  }

  /** Every other step of a task: the budget of its own program counter covers it. */
  lemma TaskPays(c: Config, s: State, step: Step, j: JobId)
    requires Enabled(c, s, step) && OfTask(step) && !step.CountDeliveries? && !step.Ack? && !step.Republish?
    ensures Potential(c, Apply(c, s, step), j) + StartsOf(s, step, j) <= Potential(c, s, j)
  {
    MovesOwnTask(c, s, step);
    GotoPays(c, s, ChangeOf(c, s, step), j);
  }

  /** A dispatch costs no more than a job's whole budget. */
  lemma {:induction false} DispatchBudget(c: Config, m: JobMessage)
    requires 1 <= m.attempt <= LastAttempt(c)
    ensures 1 + ChainBudget(c, m) <= JobBudget(c)
  {
    PowerSumGrows(DeliveryLimit(c), Later(c, m), LastAttempt(c));
  }

  /** The count of a claimed entry is covered by the claim, unless it is stale. */
  lemma CountPays(c: Config, s: State, step: Step, j: JobId)
    requires Intact(c, s) && Enabled(c, s, step) && step.CountDeliveries?
    ensures Potential(c, Apply(c, s, step), j) <= Potential(c, s, j) + StalesOf(s, step, j) * JobBudget(c)
  {
    var k := s.tasks[step.task];
    var pc := CountMove(c, s, step.task).pc;
    assert TaskOk(c, s, k) && PointerOk(c, s.rows, k.msg);
    DispatchBudget(c, k.msg);
    assert TaskBudget(c, s.pel, j, k.(pc := pc)) <= TaskBudget(c, s.pel, j, k) + StalesOf(s, step, j) * JobBudget(c);
    GotoPays(c, s, Nothing(s).(move := Goto(step.task, pc)), j);
  }

  /** What the step adds to the job's budget. */
  function Income(s: State, step: Step, j: JobId): nat {
    FirstsOf(step, j) + StalesOf(s, step, j)
  }

  lemma StepPays(c: Config, s: State, step: Step, j: JobId)
    requires Intact(c, s) && Enabled(c, s, step)
    ensures Covered(Potential(c, Apply(c, s, step), j) + StartsOf(s, step, j), Potential(c, s, j), Income(s, step, j),
            JobBudget(c))
  {
    match step
    case Read(_, _) => ReadPays(c, s, step, j);
    case Reclaim(_, _) => ReclaimPays(c, s, step, j);
    case ClaimEntry(_, _) => ReclaimPays(c, s, step, j);
    case CountDeliveries(_) => CountPays(c, s, step, j);
    case Publish(_, _) => PublishPays(c, s, step, j);
    case Republish(_) => RepublishPays(c, s, step, j);
    case Ack(_) => AckPays(c, s, step, j);
    case Submit(_, _, _, _) => IdlePays(c, s, step, j);
    case Abandon(_) => IdlePays(c, s, step, j);
    case _ => TaskPays(c, s, step, j);
  }

  lemma IdlePays(c: Config, s: State, step: Step, j: JobId)
    requires Enabled(c, s, step) && (step.Submit? || step.Abandon?)
    ensures Potential(c, Apply(c, s, step), j) <= Potential(c, s, j)
  {
    EntryBudgetsSame(c, s, Apply(c, s, step), j);
    TaskBudgetsStay(c, s, ChangeOf(c, s, step), j);
  }

  // ------------------------------------------------------------- main result

  /** How many first pointers of `j` the run appends. */
  function FirstPublishes(steps: seq<Step>, j: JobId): nat {
    if steps == [] then 0 else FirstsOf(steps[0], j) + FirstPublishes(steps[1..], j)
  }

  /** How many counts of claimed entries of `j` come after the entry was acked. */
  function StaleCounts(c: Config, s: State, steps: seq<Step>, j: JobId): nat
    requires Legal(c, s, steps)
    decreases |steps|
  {
    if steps == [] then 0 else StalesOf(s, steps[0], j) + StaleCounts(c, Apply(c, s, steps[0]), steps[1..], j)
  }

  /** Both kinds of income over the run. */
  function RunIncome(c: Config, s: State, steps: seq<Step>, j: JobId): nat
    requires Legal(c, s, steps)
  {
    FirstPublishes(steps, j) + StaleCounts(c, s, steps, j)
  }

  /** The run's starts are paid for by the potential it begins with and its income. */
  predicate Covered(begun: nat, potential: nat, income: nat, budget: nat) {
    begun <= potential + income * budget
  }

  lemma {:induction false} RunPays(c: Config, s: State, steps: seq<Step>, j: JobId)
    requires Intact(c, s) && Legal(c, s, steps)
    ensures Covered(Begun(c, s, steps, j), Potential(c, s, j), RunIncome(c, s, steps, j), JobBudget(c))
    decreases |steps|
  {
    if steps == [] {
      assert Begun(c, s, steps, j) == 0;
    } else {
      StepKeepsIntegrity(c, s, steps[0]);
      RunPays(c, Apply(c, s, steps[0]), steps[1..], j);
      StepPays(c, s, steps[0], j);
      FirstStepPays(c, s, steps, j);
    }
  }

  lemma {:induction false} FirstStepPays(c: Config, s: State, steps: seq<Step>, j: JobId)
    requires steps != [] && Legal(c, s, steps)
    requires var s1 := Apply(c, s, steps[0]);
             && Covered(Potential(c, s1, j) + StartsOf(s, steps[0], j), Potential(c, s, j), Income(s, steps[0], j),
               JobBudget(c))
             && Covered(Begun(c, s1, steps[1..], j), Potential(c, s1, j), RunIncome(c, s1, steps[1..], j), JobBudget(c))
    ensures Covered(Begun(c, s, steps, j), Potential(c, s, j), RunIncome(c, s, steps, j), JobBudget(c))
  {
    var s1 := Apply(c, s, steps[0]);
    Carry(StartsOf(s, steps[0], j), Begun(c, s1, steps[1..], j), Potential(c, s, j), Potential(c, s1, j),
          Income(s, steps[0], j), RunIncome(c, s1, steps[1..], j), JobBudget(c));
  }

  /** One step's account and the rest of the run's add up. */
  lemma Carry(starts: nat, begun: nat, before: nat, after: nat, income: nat, rest: nat, budget: nat)
    requires Covered(after + starts, before, income, budget) && Covered(begun, after, rest, budget)
    ensures Covered(starts + begun, before, income + rest, budget)
  {
    assert (income + rest) * budget == income * budget + rest * budget;
  }

  /**
   Each first pointer of a job, and each stale count of one of its claims, buys
   at most D + D^2 + ... + D^M begin writes, and so as many pipeline starts.
   */
  lemma WorkIsBounded(c: Config, steps: seq<Step>, j: JobId)
    requires Legal(c, INITIAL, steps)
    ensures PipelineStarts(c, INITIAL, steps, j) <= Begun(c, INITIAL, steps, j)
            <= (FirstPublishes(steps, j) + StaleCounts(c, INITIAL, steps, j)) * PowerSum(DeliveryLimit(c),
              LastAttempt(c))
  {
    assert EntryBudgets(c, INITIAL, j) == [] && TaskBudgets(c, INITIAL, j) == [];
    RunPays(c, INITIAL, steps, j);
    BeginsAccountedFor(c, INITIAL, steps, j);
  }

  /** Claim, count and dispatch are one step: nothing can ack the entry in between. */
  predicate Unsplit(step: Step) {
    !step.ClaimEntry? && !step.CountDeliveries?
  }

  lemma {:induction false} UnsplitNeverStale(c: Config, s: State, steps: seq<Step>, j: JobId)
    requires Legal(c, s, steps) && forall i :: 0 <= i < |steps| ==> Unsplit(steps[i])
    ensures StaleCounts(c, s, steps, j) == 0
    decreases |steps|
  {
    if steps != [] { UnsplitNeverStale(c, Apply(c, s, steps[0]), steps[1..], j); }
  }

  /** With claim and dispatch in one step and one first publish, the bound is D + D^2 + ... + D^M. */
  lemma OnePublishBoundsWork(c: Config, steps: seq<Step>, j: JobId)
    requires Legal(c, INITIAL, steps) && forall i :: 0 <= i < |steps| ==> Unsplit(steps[i])
    requires FirstPublishes(steps, j) <= 1
    ensures PipelineStarts(c, INITIAL, steps, j) <= Begun(c, INITIAL, steps, j)
            <= PowerSum(DeliveryLimit(c), LastAttempt(c))
  {
    WorkIsBounded(c, steps, j);
    UnsplitNeverStale(c, INITIAL, steps, j);
    if FirstPublishes(steps, j) == 0 { assert 0 * PowerSum(DeliveryLimit(c), LastAttempt(c)) == 0; }
  }
}
