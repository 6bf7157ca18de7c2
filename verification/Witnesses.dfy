/**
 Runs that mark where the guarantees end: each shows that a hypothesis or a
 weaker wording elsewhere in the project cannot be dropped.
 */
module Witnesses {
  import opened Wrappers
  import opened Jobs
  import opened Messages
  import opened Protocol
  import opened Execution
  import opened Windows
  import opened NoLoss
  import opened Stranded
  import opened FineRuns
  import opened Counting

  ghost predicate FineReachable(c: Config, f: Fine) {
    exists steps :: FineLegal(c, FINE_INITIAL, steps) && FineExec(c, FINE_INITIAL, steps) == f
  }

  lemma FineReach(c: Config, f: Fine, step: FineStep)
    requires FineReachable(c, f) && FineEnabled(c, f, step)
    ensures FineReachable(c, FineApply(c, f, step))
  {
    var steps :| FineLegal(c, FINE_INITIAL, steps) && FineExec(c, FINE_INITIAL, steps) == f;
    FineExtend(c, FINE_INITIAL, steps, step);
  }

  /** What the machine with atomic windows reaches, the code reaches. */
  lemma FineReachFrom(c: Config, s: State)
    requires Reachable(c, s)
    ensures FineReachable(c, Fine(s, map[]))
  {
    var steps :| Legal(c, INITIAL, steps) && Exec(c, INITIAL, steps) == s;
    var fine := CoarseIsFine(c, INITIAL, steps);
  }

  lemma Reach(c: Config, s: State, step: Step)
    requires Reachable(c, s) && Enabled(c, s, step)
    ensures Reachable(c, Apply(c, s, step))
  {
    var steps :| Legal(c, INITIAL, steps) && Exec(c, INITIAL, steps) == s;
    LegalConcat(c, INITIAL, steps, [step]);
  }

  const FIRST := JobMessage(0, RagQuery, 1)
  const FRESH_ROW := NewJob(0, RagQuery, map[])

  /** Job 0 published and its first pointer delivered, received or lost. */
  function Delivered(received: bool): State {
    State(map[0 := FRESH_ROW], map[], [FIRST], 1, map[0 := Claim(0, 1)], [],
          if received then [Task(0, 0, FIRST, AtGuard)] else [])
  }

  lemma DeliveredReachable(c: Config, received: bool)
    ensures Reachable(c, Delivered(received))
  {
    assert Legal(c, INITIAL, []) && Exec(c, INITIAL, []) == INITIAL;
    Reach(c, INITIAL, Submit(0, RagQuery, map[], 1));
    assert SUBMITTED == Apply(c, INITIAL, Submit(0, RagQuery, map[], 1));
    PublishedNext(c);
    Reach(c, SUBMITTED, Publish(0, Published));
    DeliveredNext(c, received);
    Reach(c, PUBLISHED, Read(0, received));
  }

  const SUBMITTED := State(map[0 := FRESH_ROW], map[0 := 1], [], 0, map[], [], [])
  const PUBLISHED := State(map[0 := FRESH_ROW], map[], [FIRST], 0, map[], [], [])

  lemma PublishedNext(c: Config)
    ensures Enabled(c, SUBMITTED, Publish(0, Published)) && Apply(c, SUBMITTED, Publish(0, Published)) == PUBLISHED
  {
    assert SUBMITTED.submitting - {0} == map[];
  }

  lemma DeliveredNext(c: Config, received: bool)
    ensures Enabled(c, PUBLISHED, Read(0, received)) && Apply(c, PUBLISHED, Read(0, received)) == Delivered(received)
  {
  }

  // ------------------------------------------- dead-lettered, but not failed

  const LIMIT_1 := Config(3, 1)
  const OVER := OverDelivered(2)

  function Bounced(dlq: seq<DeadLetter>, pel: map<EntryId, Claim>, pc: Pc): State {
    State(map[0 := FRESH_ROW], map[], [FIRST], 1, pel, dlq, [Task(1, 0, FIRST, pc)])
  }

  lemma OverDeliveredReachable()
    ensures Reachable(LIMIT_1, Bounced([], map[0 := Claim(1, 2)], AtBury(OVER)))
  {
    DeliveredReachable(LIMIT_1, false);
    ReclaimedOver();
    Reach(LIMIT_1, Delivered(false), Reclaim(1, 0));
  }

  lemma ReclaimedOver()
    ensures var s := Delivered(false);
            Enabled(LIMIT_1, s, Reclaim(1, 0))
              && Apply(LIMIT_1, s, Reclaim(1, 0)) == Bounced([], map[0 := Claim(1, 2)], AtBury(OVER))
  {
    assert !InFlight(Delivered(false), 1, 0);
  }

  lemma OverDeliveredBuried()
    ensures Reachable(LIMIT_1, Bounced([DeadLetter(FIRST, OVER)], map[0 := Claim(1, 2)], AtAckDead(OVER)))
  {
    OverDeliveredReachable();
    var s := Bounced([], map[0 := Claim(1, 2)], AtBury(OVER));
    Reach(LIMIT_1, s, Bury(0));
    assert Bounced([DeadLetter(FIRST, OVER)], map[0 := Claim(1, 2)], AtAckDead(OVER)) == Apply(LIMIT_1, s, Bury(0));
  }

  /** An over-delivered entry is buried and acked while its row stays pending. */
  lemma BuriedIsNotFailed()
    ensures Reachable(LIMIT_1, Bounced([DeadLetter(FIRST, OVER)], map[], Done))
    ensures FRESH_ROW.status == Pending
  {
    OverDeliveredBuried();
    var s := Bounced([DeadLetter(FIRST, OVER)], map[0 := Claim(1, 2)], AtAckDead(OVER));
    Reach(LIMIT_1, s, Ack(0));
    assert Bounced([DeadLetter(FIRST, OVER)], map[], Done) == Apply(LIMIT_1, s, Ack(0));
  }

  // ------------------------------------------- dead-lettered by a failed read

  const RAISED := Unexpected("")

  /** Job 0 delivered once, to consumer 0. */
  function Once(dlq: seq<DeadLetter>, pel: map<EntryId, Claim>, pc: Pc): State {
    State(map[0 := FRESH_ROW], map[], [FIRST], 1, pel, dlq, [Task(0, 0, FIRST, pc)])
  }

  const HELD: map<EntryId, Claim> := map[0 := Claim(0, 1)]

  lemma BeginRaised(c: Config)
    ensures Reachable(c, Once([], HELD, AtBury(RAISED)))
  {
    DeliveredReachable(c, true);
    var s := Once([], HELD, AtGuard);
    assert s == Delivered(true) && AfterGuard(RowOf(s, 0)) == AtBegin;
    Reach(c, s, Guard(0));
    assert Once([], HELD, AtBegin) == Apply(c, s, Guard(0));
    Reach(c, Once([], HELD, AtBegin), BeginRaises(0, ""));
    assert Once([], HELD, AtBury(RAISED)) == Apply(c, Once([], HELD, AtBegin), BeginRaises(0, ""));
  }

  lemma RaisedBuried(c: Config)
    ensures Reachable(c, Once([DeadLetter(FIRST, RAISED)], HELD, AtAckDead(RAISED)))
  {
    BeginRaised(c);
    var s := Once([], HELD, AtBury(RAISED));
    Reach(c, s, Bury(0));
    assert Once([DeadLetter(FIRST, RAISED)], HELD, AtAckDead(RAISED)) == Apply(c, s, Bury(0));
  }

  lemma RaisedAcked(c: Config)
    ensures Reachable(c, Once([DeadLetter(FIRST, RAISED)], map[], AtFail(RAISED)))
  {
    RaisedBuried(c);
    var s := Once([DeadLetter(FIRST, RAISED)], HELD, AtAckDead(RAISED));
    assert HELD - {0} == map[];
    Reach(c, s, Ack(0));
    assert Once([DeadLetter(FIRST, RAISED)], map[], AtFail(RAISED)) == Apply(c, s, Ack(0));
  }

  /**
   One failed read of the row, under any configuration: the entry is buried and
   acked, the fail write is refused on a pending row, and the row is stranded.
   */
  lemma BuriedWithoutFailing(c: Config) returns (s: State)
    ensures Reachable(c, s) && DeadLettered(s, 0) && s.pel == map[] && s.cursor == |s.stream|
    ensures forall t :: 0 <= t < |s.tasks| ==> s.tasks[t].pc.Done?
    ensures 0 in s.rows && s.rows[0].status == Pending && IsStranded(c, s, 0)
  {
    RaisedAcked(c);
    var s0 := Once([DeadLetter(FIRST, RAISED)], map[], AtFail(RAISED));
    assert AfterFail(Some(FRESH_ROW), RAISED) == (None, Done);
    Reach(c, s0, FailRow(0));
    s := Once([DeadLetter(FIRST, RAISED)], map[], Done);
    assert s == Apply(c, s0, FailRow(0));
    RaisedIsStranded(c);
  }

  lemma RaisedIsStranded(c: Config)
    ensures var s := Once([DeadLetter(FIRST, RAISED)], map[], Done); DeadLettered(s, 0) && IsStranded(c, s, 0)
  {
    var s := Once([DeadLetter(FIRST, RAISED)], map[], Done);
    assert s.dlq[0].msg.jobId == 0;
  }

  // ------------------------------------------------ a begin write that is lost

  lemma {:induction false} StartsAppend(c: Config, s: State, steps: seq<Step>, step: Step, j: JobId)
    requires Legal(c, s, steps) && Enabled(c, Exec(c, s, steps), step)
    ensures Legal(c, s, steps + [step]) && Exec(c, s, steps + [step]) == Apply(c, Exec(c, s, steps), step)
    ensures PipelineStarts(c, s, steps + [step], j) ==
            PipelineStarts(c, s, steps, j) + if StartsPipeline(Exec(c, s, steps), step, j) then 1 else 0
    decreases |steps|
  {
    if steps == [] {
      assert [] + [step] == [step] && [step][1..] == [];
    } else {
      assert (steps + [step])[1..] == steps[1..] + [step];
      StartsAppend(c, Apply(c, s, steps[0]), steps[1..], step, j);
    }
  }

  /** The begin write lands and its call raises: one attempt on record, and no pipeline call. */
  lemma AttemptsCanExceedStarts() returns (steps: seq<Step>)
    ensures Legal(CFG, INITIAL, steps) && PipelineStarts(CFG, INITIAL, steps, 0) == 0
    ensures var s := Exec(CFG, INITIAL, steps); 0 in s.rows && s.rows[0].attempts == 1 && AwaitingStart(s, 0) == 0
  {
    StartingAlone();
    var s := Alone(RUN_ROW, AtStart(RUN_ROW));
    var before :| Legal(CFG, INITIAL, before) && Exec(CFG, INITIAL, before) == s;
    assert Awaits(s.tasks[0], 0);
    AttemptsCountStarts(CFG, before, 0);
    StartsAppend(CFG, INITIAL, before, BeginLost(0, ""), 0);
    steps := before + [BeginLost(0, "")];
  }

  // ----------------------------------------------------- failed is not final

  const CFG := Config(3, 5)
  const REFUSED := Unexpected("InvalidTransition")
  const LETTER := DeadLetter(FIRST, REFUSED)
  const RUN_ROW := FRESH_ROW.(status := Running, attempts := 1)
  const LOST_ROW := RUN_ROW.(status := Failed, error := Some("InvalidTransition"))
  const WON_ROW := RUN_ROW.(status := Success, resultRef := Some("ref"), durationMs := Some(0))

  /** Job 0 delivered to consumers 0 and 1. */
  function Doubled(row: Job, dlq: seq<DeadLetter>, pel: map<EntryId, Claim>, pc0: Pc, pc1: Pc): State {
    State(map[0 := row], map[], [FIRST], 1, pel, dlq, [Task(0, 0, FIRST, pc0), Task(1, 0, FIRST, pc1)])
  }

  function Alone(row: Job, pc: Pc): State {
    State(map[0 := row], map[], [FIRST], 1, map[0 := Claim(0, 1)], [], [Task(0, 0, FIRST, pc)])
  }

  const TWICE := map[0 := Claim(1, 2)]

  lemma BeginningAlone()
    ensures Reachable(CFG, Alone(FRESH_ROW, AtBegin))
  {
    DeliveredReachable(CFG, true);
    Reach(CFG, Delivered(true), Guard(0));
    assert Alone(FRESH_ROW, AtBegin) == Apply(CFG, Delivered(true), Guard(0));
  }

  lemma StartingAlone()
    ensures Reachable(CFG, Alone(RUN_ROW, AtStart(RUN_ROW)))
  {
    BeginningAlone();
    Reach(CFG, Alone(FRESH_ROW, AtBegin), Begin(0));
    assert Alone(RUN_ROW, AtStart(RUN_ROW)) == Apply(CFG, Alone(FRESH_ROW, AtBegin), Begin(0));
  }

  lemma ExecutingAlone()
    ensures Reachable(CFG, Alone(RUN_ROW, Executing(RUN_ROW)))
  {
    StartingAlone();
    Reach(CFG, Alone(RUN_ROW, AtStart(RUN_ROW)), StartPipeline(0));
    assert Alone(RUN_ROW, Executing(RUN_ROW)) == Apply(CFG, Alone(RUN_ROW, AtStart(RUN_ROW)), StartPipeline(0));
  }

  lemma ClaimedMeanwhile()
    ensures Reachable(CFG, Doubled(RUN_ROW, [], TWICE, Executing(RUN_ROW), AtGuard))
  {
    ExecutingAlone();
    var s := Alone(RUN_ROW, Executing(RUN_ROW));
    Reach(CFG, s, Reclaim(1, 0));
    assert Doubled(RUN_ROW, [], TWICE, Executing(RUN_ROW), AtGuard) == Apply(CFG, s, Reclaim(1, 0));
  }

  lemma GuardedMeanwhile()
    ensures Reachable(CFG, Doubled(RUN_ROW, [], TWICE, Executing(RUN_ROW), AtBegin))
  {
    ClaimedMeanwhile();
    var s := Doubled(RUN_ROW, [], TWICE, Executing(RUN_ROW), AtGuard);
    assert AfterGuard(RowOf(s, 1)) == AtBegin;
    Reach(CFG, s, Guard(1));
    assert Doubled(RUN_ROW, [], TWICE, Executing(RUN_ROW), AtBegin) == Apply(CFG, s, Guard(1));
  }

  lemma RefusedMeanwhile()
    ensures Reachable(CFG, Doubled(RUN_ROW, [], TWICE, Executing(RUN_ROW), AtBury(REFUSED)))
  {
    GuardedMeanwhile();
    var s := Doubled(RUN_ROW, [], TWICE, Executing(RUN_ROW), AtBegin);
    assert AfterBegin(RowOf(s, 1)) == (None, AtBury(REFUSED));
    Reach(CFG, s, Begin(1));
    assert Doubled(RUN_ROW, [], TWICE, Executing(RUN_ROW), AtBury(REFUSED)) == Apply(CFG, s, Begin(1));
  }

  lemma BuriedMeanwhile()
    ensures Reachable(CFG, Doubled(RUN_ROW, [LETTER], TWICE, Executing(RUN_ROW), AtAckDead(REFUSED)))
  {
    RefusedMeanwhile();
    var s := Doubled(RUN_ROW, [], TWICE, Executing(RUN_ROW), AtBury(REFUSED));
    Reach(CFG, s, Bury(1));
    assert Doubled(RUN_ROW, [LETTER], TWICE, Executing(RUN_ROW), AtAckDead(REFUSED)) == Apply(CFG, s, Bury(1));
  }

  lemma AckedMeanwhile()
    ensures Reachable(CFG, Doubled(RUN_ROW, [LETTER], map[], Executing(RUN_ROW), AtFail(REFUSED)))
  {
    BuriedMeanwhile();
    var s := Doubled(RUN_ROW, [LETTER], TWICE, Executing(RUN_ROW), AtAckDead(REFUSED));
    assert TWICE - {0} == map[];
    Reach(CFG, s, Ack(1));
    assert Doubled(RUN_ROW, [LETTER], map[], Executing(RUN_ROW), AtFail(REFUSED)) == Apply(CFG, s, Ack(1));
  }

  lemma FailedMeanwhile()
    ensures Reachable(CFG, Doubled(LOST_ROW, [LETTER], map[], Executing(RUN_ROW), Done))
  {
    AckedMeanwhile();
    assert AfterFail(Some(RUN_ROW), REFUSED) == (Some(LOST_ROW), Done);
    var s := Doubled(RUN_ROW, [LETTER], map[], Executing(RUN_ROW), AtFail(REFUSED));
    Reach(CFG, s, FailRow(1));
    assert Doubled(LOST_ROW, [LETTER], map[], Executing(RUN_ROW), Done) == Apply(CFG, s, FailRow(1));
  }

  lemma FinishedMeanwhile()
    ensures Reachable(CFG, Doubled(LOST_ROW, [LETTER], map[], AtCommit(WON_ROW), Done))
  {
    FailedMeanwhile();
    var s := Doubled(LOST_ROW, [LETTER], map[], Executing(RUN_ROW), Done);
    Reach(CFG, s, Finish(0, Succeeded("ref", 0)));
    assert Doubled(LOST_ROW, [LETTER], map[], AtCommit(WON_ROW), Done) == Apply(CFG, s, Finish(0, Succeeded("ref", 0)));
  }

  /** A duplicate delivery fails the row under a running execution, whose own write then makes it successful. */
  lemma FailedIsNotFinal() returns (s: State, s': State)
    ensures Reachable(CFG, s) && 0 in s.rows && s.rows[0].status == Failed
    ensures Enabled(CFG, s, Commit(0, Written)) && s' == Apply(CFG, s, Commit(0, Written))
    ensures 0 in s'.rows && s'.rows[0].status == Success && s'.dlq == [LETTER]
  {
    FinishedMeanwhile();
    s := Doubled(LOST_ROW, [LETTER], map[], AtCommit(WON_ROW), Done);
    s' := Apply(CFG, s, Commit(0, Written));
  }

  // -------------------------------------- interleaved begin windows overlap

  function Raced(row: Job, pc0: Pc, pc1: Pc, open: map<TaskId, Job>): Fine {
    Fine(Doubled(row, [], TWICE, pc0, pc1), open)
  }

  lemma ReclaimedTwice()
    ensures var s := Delivered(true);
            Enabled(CFG, s, Reclaim(1, 0))
              && Apply(CFG, s, Reclaim(1, 0)) == Doubled(FRESH_ROW, [], TWICE, AtGuard, AtGuard)
  {
    assert !InFlight(Delivered(true), 1, 0);
  }

  lemma BothAtGuard()
    ensures Reachable(CFG, Doubled(FRESH_ROW, [], TWICE, AtGuard, AtGuard))
  {
    DeliveredReachable(CFG, true);
    ReclaimedTwice();
    Reach(CFG, Delivered(true), Reclaim(1, 0));
  }

  lemma OneAtBegin()
    ensures Reachable(CFG, Doubled(FRESH_ROW, [], TWICE, AtBegin, AtGuard))
  {
    BothAtGuard();
    var s := Doubled(FRESH_ROW, [], TWICE, AtGuard, AtGuard);
    assert AfterGuard(RowOf(s, 0)) == AtBegin;
    Reach(CFG, s, Guard(0));
    assert Doubled(FRESH_ROW, [], TWICE, AtBegin, AtGuard) == Apply(CFG, s, Guard(0));
  }

  lemma BothAtBegin()
    ensures FineReachable(CFG, Raced(FRESH_ROW, AtBegin, AtBegin, map[]))
  {
    OneAtBegin();
    var s := Doubled(FRESH_ROW, [], TWICE, AtBegin, AtGuard);
    assert AfterGuard(RowOf(s, 1)) == AtBegin;
    Reach(CFG, s, Guard(1));
    assert Doubled(FRESH_ROW, [], TWICE, AtBegin, AtBegin) == Apply(CFG, s, Guard(1));
    FineReachFrom(CFG, Doubled(FRESH_ROW, [], TWICE, AtBegin, AtBegin));
  }

  lemma BothHaveRead()
    ensures FineReachable(CFG, Raced(FRESH_ROW, AtBegin, AtBegin, map[0 := FRESH_ROW, 1 := FRESH_ROW]))
  {
    BothAtBegin();
    var f := Raced(FRESH_ROW, AtBegin, AtBegin, map[]);
    var f' := Raced(FRESH_ROW, AtBegin, AtBegin, map[0 := FRESH_ROW]);
    FineReach(CFG, f, Get(0));
    assert f' == FineApply(CFG, f, Get(0));
    FineReach(CFG, f', Get(1));
    assert Raced(FRESH_ROW, AtBegin, AtBegin, map[0 := FRESH_ROW, 1 := FRESH_ROW]) == FineApply(CFG, f', Get(1));
  }

  lemma OneHasWritten()
    ensures FineReachable(CFG, Raced(RUN_ROW, AtStart(RUN_ROW), AtBegin, STALE))
  {
    BothHaveRead();
    var f := Raced(FRESH_ROW, AtBegin, AtBegin, map[0 := FRESH_ROW, 1 := FRESH_ROW]);
    assert AfterWindow(AtBegin, Some(FRESH_ROW)) == (Some(RUN_ROW), AtStart(RUN_ROW));
    FineReach(CFG, f, Update(0));
    assert Raced(RUN_ROW, AtStart(RUN_ROW), AtBegin, STALE) == FineApply(CFG, f, Update(0));
  }

  lemma OneHasStarted()
    ensures FineReachable(CFG, Raced(RUN_ROW, Executing(RUN_ROW), AtBegin, STALE))
  {
    OneHasWritten();
    var f := Raced(RUN_ROW, AtStart(RUN_ROW), AtBegin, STALE);
    DoubledNext(RUN_ROW, TWICE, AtStart(RUN_ROW), AtBegin, ChangeOf(CFG, f.s, StartPipeline(0)));
    FineReach(CFG, f, Plain(StartPipeline(0)));
    assert Raced(RUN_ROW, Executing(RUN_ROW), AtBegin, STALE) == FineApply(CFG, f, Plain(StartPipeline(0)));
  }

  lemma OtherHasWritten()
    ensures FineReachable(CFG, Raced(RUN_ROW, Executing(RUN_ROW), AtStart(RUN_ROW), map[]))
  {
    OneHasStarted();
    var f := Raced(RUN_ROW, Executing(RUN_ROW), AtBegin, STALE);
    assert AfterWindow(AtBegin, Some(FRESH_ROW)) == (Some(RUN_ROW), AtStart(RUN_ROW));
    assert STALE - {1} == map[];
    FineReach(CFG, f, Update(1));
    assert Raced(RUN_ROW, Executing(RUN_ROW), AtStart(RUN_ROW), map[]) == FineApply(CFG, f, Update(1));
  }

  /** If both deliveries read the row before either writes it, both execute and one start goes uncounted. */
  lemma ExecutionsCanOverlap() returns (f: Fine)
    ensures FineReachable(CFG, f)
    ensures |f.s.tasks| == 2 && f.s.tasks[0].msg.jobId == f.s.tasks[1].msg.jobId == 0
    ensures f.s.tasks[0].pc.Executing? && f.s.tasks[1].pc.Executing?
    ensures 0 in f.s.rows && f.s.rows[0].attempts == 1
  {
    OtherHasWritten();
    var f1 := Raced(RUN_ROW, Executing(RUN_ROW), AtStart(RUN_ROW), map[]);
    FineReach(CFG, f1, Plain(StartPipeline(1)));
    f := FineApply(CFG, f1, Plain(StartPipeline(1)));
  }

  // ------------------------------------------ interleaved begin windows lose

  function Losing(row: Job, pel: map<EntryId, Claim>, pc0: Pc, pc1: Pc, open: map<TaskId, Job>): Fine {
    Fine(Doubled(row, [], pel, pc0, pc1), open)
  }

  /** A move of one of the two tasks, on the doubled state. */
  lemma DoubledNext(row: Job, pel: map<EntryId, Claim>, pc0: Pc, pc1: Pc, d: Change)
    requires d.publish.None? && d.bury.None? && d.cursor == 1 && d.submitting == map[] && d.move.Goto?
             && d.move.task < 2
    requires d.write.Some? ==> d.write.value.id == 0
    ensures Perform(Doubled(row, [], pel, pc0, pc1), d) ==
            Doubled(if d.write.Some? then d.write.value else row, [], d.pel,
                    if d.move.task == 0 then d.move.pc else pc0, if d.move.task == 1 then d.move.pc else pc1)
  {
  }

  const STALE: map<TaskId, Job> := map[1 := FRESH_ROW]

  lemma OneHasFinished()
    ensures FineReachable(CFG, Losing(RUN_ROW, TWICE, AtCommit(WON_ROW), AtBegin, STALE))
  {
    OneHasStarted();
    var f := Losing(RUN_ROW, TWICE, Executing(RUN_ROW), AtBegin, STALE);
    DoubledNext(RUN_ROW, TWICE, Executing(RUN_ROW), AtBegin, ChangeOf(CFG, f.s, Finish(0, Succeeded("ref", 0))));
    FineReach(CFG, f, Plain(Finish(0, Succeeded("ref", 0))));
    assert Losing(RUN_ROW, TWICE, AtCommit(WON_ROW), AtBegin, STALE) ==
           FineApply(CFG, f, Plain(Finish(0, Succeeded("ref", 0))));
  }

  lemma OneHasCommitted()
    ensures FineReachable(CFG, Losing(WON_ROW, TWICE, AtAck, AtBegin, STALE))
  {
    OneHasFinished();
    var f := Losing(RUN_ROW, TWICE, AtCommit(WON_ROW), AtBegin, STALE);
    DoubledNext(RUN_ROW, TWICE, AtCommit(WON_ROW), AtBegin, ChangeOf(CFG, f.s, Commit(0, Written)));
    FineReach(CFG, f, Plain(Commit(0, Written)));
    assert Losing(WON_ROW, TWICE, AtAck, AtBegin, STALE) == FineApply(CFG, f, Plain(Commit(0, Written)));
  }

  lemma OneHasAcked()
    ensures FineReachable(CFG, Losing(WON_ROW, map[], Done, AtBegin, STALE))
  {
    OneHasCommitted();
    var f := Losing(WON_ROW, TWICE, AtAck, AtBegin, STALE);
    assert TWICE - {0} == map[];
    DoubledNext(WON_ROW, TWICE, AtAck, AtBegin, ChangeOf(CFG, f.s, Ack(0)));
    FineReach(CFG, f, Plain(Ack(0)));
    assert Losing(WON_ROW, map[], Done, AtBegin, STALE) == FineApply(CFG, f, Plain(Ack(0)));
  }

  lemma OtherHasOverwritten()
    ensures FineReachable(CFG, Losing(RUN_ROW, map[], Done, AtStart(RUN_ROW), map[]))
  {
    OneHasAcked();
    var f := Losing(WON_ROW, map[], Done, AtBegin, STALE);
    assert AfterWindow(AtBegin, Some(FRESH_ROW)) == (Some(RUN_ROW), AtStart(RUN_ROW));
    assert STALE - {1} == map[];
    FineReach(CFG, f, Update(1));
    assert Losing(RUN_ROW, map[], Done, AtStart(RUN_ROW), map[]) == FineApply(CFG, f, Update(1));
  }

  /**
   A begin write whose read was overtaken by a whole execution takes the success
   back; if its worker then dies, nothing holds the job any more.
   */
  lemma JobsCanBeLost() returns (f: Fine)
    ensures FineReachable(CFG, f)
    ensures |f.s.stream| == 1 && f.s.stream[0].jobId == 0
    ensures !IsTerminalRow(f.s, 0) && !DeadLettered(f.s, 0) && !StillQueued(f.s, 0)
    ensures forall t :: 0 <= t < |f.s.tasks| ==> f.s.tasks[t].pc.Done?
  {
    OtherHasOverwritten();
    var f1 := Losing(RUN_ROW, map[], Done, AtStart(RUN_ROW), map[]);
    FineReach(CFG, f1, Plain(Abort(1)));
    f := Losing(RUN_ROW, map[], Done, Done, map[]);
    assert f == FineApply(CFG, f1, Plain(Abort(1)));
  }

  // ------------------------------------------- a requeue write that was overtaken

  lemma RetryingMeanwhile()
    ensures Reachable(CFG, Doubled(RUN_ROW, [LETTER], map[], AtRequeue, AtFail(REFUSED)))
  {
    AckedMeanwhile();
    var s := Doubled(RUN_ROW, [LETTER], map[], Executing(RUN_ROW), AtFail(REFUSED));
    Reach(CFG, s, Finish(0, TransientError("")));
    assert Doubled(RUN_ROW, [LETTER], map[], AtRequeue, AtFail(REFUSED)) ==
           Apply(CFG, s, Finish(0, TransientError("")));
  }

  function Retrying(row: Job, pc: Pc, open: map<TaskId, Job>): Fine {
    Fine(Doubled(row, [LETTER], map[], AtRequeue, pc), open)
  }

  lemma BothWindowsOpen()
    ensures FineReachable(CFG, Retrying(RUN_ROW, AtFail(REFUSED), map[0 := RUN_ROW, 1 := RUN_ROW]))
  {
    RetryingMeanwhile();
    FineReachFrom(CFG, Doubled(RUN_ROW, [LETTER], map[], AtRequeue, AtFail(REFUSED)));
    var f := Retrying(RUN_ROW, AtFail(REFUSED), map[]);
    var f' := Retrying(RUN_ROW, AtFail(REFUSED), map[0 := RUN_ROW]);
    FineReach(CFG, f, Get(0));
    assert f' == FineApply(CFG, f, Get(0));
    FineReach(CFG, f', Get(1));
    assert Retrying(RUN_ROW, AtFail(REFUSED), map[0 := RUN_ROW, 1 := RUN_ROW]) == FineApply(CFG, f', Get(1));
  }

  /** Both windows have read the running row; the failure is written first, and the requeue then reopens the row. */
  lemma StaleRequeueReopens() returns (f: Fine, f': Fine)
    ensures FineReachable(CFG, f) && 0 in f.s.rows && f.s.rows[0].status == Failed
    ensures FineEnabled(CFG, f, Update(0)) && f' == FineApply(CFG, f, Update(0))
    ensures 0 in f'.s.rows && f'.s.rows[0].status == Pending
  {
    BothWindowsOpen();
    var f0 := Retrying(RUN_ROW, AtFail(REFUSED), map[0 := RUN_ROW, 1 := RUN_ROW]);
    assert AfterWindow(AtFail(REFUSED), Some(RUN_ROW)) == (Some(LOST_ROW), Done);
    FineReach(CFG, f0, Update(1));
    f := FineApply(CFG, f0, Update(1));
    f' := FineApply(CFG, f, Update(0));
  }

  // -------------------------------------------- success written a second time

  const WON_AGAIN := RUN_ROW.(status := Success, resultRef := Some("other"), durationMs := Some(0))

  lemma FirstFinished()
    ensures FineReachable(CFG, Raced(RUN_ROW, AtCommit(WON_ROW), AtStart(RUN_ROW), map[]))
  {
    OtherHasWritten();
    var f, step := Raced(RUN_ROW, Executing(RUN_ROW), AtStart(RUN_ROW), map[]), Finish(0, Succeeded("ref", 0));
    DoubledNext(RUN_ROW, TWICE, Executing(RUN_ROW), AtStart(RUN_ROW), ChangeOf(CFG, f.s, step));
    FineReach(CFG, f, Plain(step));
    assert Raced(RUN_ROW, AtCommit(WON_ROW), AtStart(RUN_ROW), map[]) == FineApply(CFG, f, Plain(step));
  }

  lemma FirstCommitted()
    ensures FineReachable(CFG, Raced(WON_ROW, AtAck, AtStart(RUN_ROW), map[]))
  {
    FirstFinished();
    var f, step := Raced(RUN_ROW, AtCommit(WON_ROW), AtStart(RUN_ROW), map[]), Commit(0, Written);
    DoubledNext(RUN_ROW, TWICE, AtCommit(WON_ROW), AtStart(RUN_ROW), ChangeOf(CFG, f.s, step));
    FineReach(CFG, f, Plain(step));
    assert Raced(WON_ROW, AtAck, AtStart(RUN_ROW), map[]) == FineApply(CFG, f, Plain(step));
  }

  lemma SecondStarted()
    ensures FineReachable(CFG, Raced(WON_ROW, AtAck, Executing(RUN_ROW), map[]))
  {
    FirstCommitted();
    var f, step := Raced(WON_ROW, AtAck, AtStart(RUN_ROW), map[]), StartPipeline(1);
    DoubledNext(WON_ROW, TWICE, AtAck, AtStart(RUN_ROW), ChangeOf(CFG, f.s, step));
    FineReach(CFG, f, Plain(step));
    assert Raced(WON_ROW, AtAck, Executing(RUN_ROW), map[]) == FineApply(CFG, f, Plain(step));
  }

  lemma SecondFinished()
    ensures FineReachable(CFG, Raced(WON_ROW, AtAck, AtCommit(WON_AGAIN), map[]))
  {
    SecondStarted();
    var f, step := Raced(WON_ROW, AtAck, Executing(RUN_ROW), map[]), Finish(1, Succeeded("other", 0));
    DoubledNext(WON_ROW, TWICE, AtAck, Executing(RUN_ROW), ChangeOf(CFG, f.s, step));
    FineReach(CFG, f, Plain(step));
    assert Raced(WON_ROW, AtAck, AtCommit(WON_AGAIN), map[]) == FineApply(CFG, f, Plain(step));
  }

  /** Two overlapping executions both succeed: success is written over success, and the result changes. */
  lemma SuccessCanBeWrittenTwice() returns (f: Fine, f': Fine)
    ensures FineReachable(CFG, f) && 0 in f.s.rows && f.s.rows[0].status == Success
    ensures var step := Plain(Commit(1, Written));
            FineEnabled(CFG, f, step) && OverwritesSuccess(f, step, 0) && f' == FineApply(CFG, f, step)
    ensures 0 in f'.s.rows && f'.s.rows[0].status == Success && f'.s.rows[0].resultRef != f.s.rows[0].resultRef
  {
    SecondFinished();
    f := Raced(WON_ROW, AtAck, AtCommit(WON_AGAIN), map[]);
    f' := FineApply(CFG, f, Plain(Commit(1, Written)));
  }

  // --------------------------------------------- a failure write that was overtaken

  const SECOND := JobMessage(0, RagQuery, 2)
  const RETRY_ROW := RUN_ROW.(status := Pending)
  const RUN_AGAIN := RUN_ROW.(attempts := 2)
  const STALE_RUN: map<TaskId, Job> := map[1 := RUN_ROW]

  /** The retry is under way in task 2 while task 1 still holds its copy of the first attempt's row. */
  function Overtaken(row: Job, tasks: seq<Pc>, open: map<TaskId, Job>): Fine
    requires |tasks| == 3
  {
    Fine(State(map[0 := row], map[], [FIRST, SECOND], 2, map[1 := Claim(2, 1)], [LETTER],
               [Task(0, 0, FIRST, tasks[0]), Task(1, 0, FIRST, tasks[1]), Task(2, 1, SECOND, tasks[2])]), open)
  }

  function Requeued(pc: Pc, stream: seq<JobMessage>): Fine {
    Fine(State(map[0 := RETRY_ROW], map[], stream, 1, map[], [LETTER],
               [Task(0, 0, FIRST, pc), Task(1, 0, FIRST, AtFail(REFUSED))]), STALE_RUN)
  }

  lemma RequeueWritten()
    ensures FineReachable(CFG, Requeued(AtRepublish, [FIRST]))
  {
    BothWindowsOpen();
    var f := Retrying(RUN_ROW, AtFail(REFUSED), map[0 := RUN_ROW, 1 := RUN_ROW]);
    assert AfterWindow(AtRequeue, Some(RUN_ROW)) == (Some(RETRY_ROW), AtRepublish);
    assert f.open - {0} == STALE_RUN;
    FineReach(CFG, f, Update(0));
    assert Requeued(AtRepublish, [FIRST]) == FineApply(CFG, f, Update(0));
  }

  lemma RetryPublished()
    ensures FineReachable(CFG, Requeued(AtAck, [FIRST, SECOND]))
  {
    RequeueWritten();
    var f := Requeued(AtRepublish, [FIRST]);
    FineReach(CFG, f, Plain(Republish(0)));
    assert STALE_RUN - {0} == STALE_RUN;
    assert Requeued(AtAck, [FIRST, SECOND]) == FineApply(CFG, f, Plain(Republish(0)));
  }

  lemma RetryDelivered()
    ensures FineReachable(CFG, Overtaken(RETRY_ROW, [AtAck, AtFail(REFUSED), AtGuard], STALE_RUN))
  {
    RetryPublished();
    var f := Requeued(AtAck, [FIRST, SECOND]);
    FineReach(CFG, f, Plain(Read(2, true)));
    assert Overtaken(RETRY_ROW, [AtAck, AtFail(REFUSED), AtGuard], STALE_RUN) ==
           FineApply(CFG, f, Plain(Read(2, true)));
  }

  lemma RetryGuarded()
    ensures FineReachable(CFG, Overtaken(RETRY_ROW, [AtAck, AtFail(REFUSED), AtBegin], STALE_RUN))
  {
    RetryDelivered();
    var f := Overtaken(RETRY_ROW, [AtAck, AtFail(REFUSED), AtGuard], STALE_RUN);
    assert AfterGuard(RowOf(f.s, 2)) == AtBegin && STALE_RUN - {2} == STALE_RUN;
    FineReach(CFG, f, Plain(Guard(2)));
    assert Overtaken(RETRY_ROW, [AtAck, AtFail(REFUSED), AtBegin], STALE_RUN) == FineApply(CFG, f, Plain(Guard(2)));
  }

  lemma RetryRead()
    ensures FineReachable(CFG, Overtaken(RETRY_ROW, [AtAck, AtFail(REFUSED), AtBegin], STALE_RUN[2 := RETRY_ROW]))
  {
    RetryGuarded();
    var f := Overtaken(RETRY_ROW, [AtAck, AtFail(REFUSED), AtBegin], STALE_RUN);
    FineReach(CFG, f, Get(2));
    assert Overtaken(RETRY_ROW, [AtAck, AtFail(REFUSED), AtBegin], STALE_RUN[2 := RETRY_ROW]) ==
           FineApply(CFG, f, Get(2));
  }

  lemma RetryBegun()
    ensures FineReachable(CFG, Overtaken(RUN_AGAIN, [AtAck, AtFail(REFUSED), AtStart(RUN_AGAIN)], STALE_RUN))
  {
    RetryRead();
    var f := Overtaken(RETRY_ROW, [AtAck, AtFail(REFUSED), AtBegin], STALE_RUN[2 := RETRY_ROW]);
    assert AfterWindow(AtBegin, Some(RETRY_ROW)) == (Some(RUN_AGAIN), AtStart(RUN_AGAIN));
    assert f.open - {2} == STALE_RUN;
    FineReach(CFG, f, Update(2));
    assert Overtaken(RUN_AGAIN, [AtAck, AtFail(REFUSED), AtStart(RUN_AGAIN)], STALE_RUN) ==
           FineApply(CFG, f, Update(2));
  }

  /** Two begin writes, each over a pending row, and a stale failure write: the stored attempts falls back to 1. */
  lemma StaleFailLowersAttempts() returns (f: Fine, f': Fine)
    ensures FineReachable(CFG, f) && 0 in f.s.rows && f.s.rows[0].attempts == 2
    ensures FineEnabled(CFG, f, Update(1)) && !FindsItsCount(f, Update(1), 0) && f' == FineApply(CFG, f, Update(1))
    ensures 0 in f'.s.rows && f'.s.rows[0].attempts == 1
  {
    RetryBegun();
    f := Overtaken(RUN_AGAIN, [AtAck, AtFail(REFUSED), AtStart(RUN_AGAIN)], STALE_RUN);
    assert AfterWindow(AtFail(REFUSED), Some(RUN_ROW)) == (Some(LOST_ROW), Done);
    f' := FineApply(CFG, f, Update(1));
  }
}
