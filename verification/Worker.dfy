/**
 The worker's and the ingestion service's code, statement by statement
 (broker/consumer.py, services/processor.py, services/ingestion.py), run against
 the step machine.

 Every `await` consumes one beat of a script: steps of everybody else, and then
 the fate of the call itself. Scripts are arbitrary, so the contracts hold for
 every interleaving and every pattern of failed calls: whatever the code does is
 a legal run of the machine with split windows.
 */
module Worker {
  import opened Wrappers
  import opened Jobs
  import opened Messages
  import opened Protocol
  import opened Integrity
  import opened Windows
  import opened NoLoss
  import opened Settling

  /** How a call ends: normally, by raising without effect, or by raising after its effect. */
  datatype Fate = Returns | Raises | RaisesLate

  datatype Beat = Beat(others: seq<FineStep>, fate: Fate, exc: string, outcome: PipelineOutcome)

  const CALM := Beat([], Returns, "", PermanentError(""))

  /** An exception as the consumer's `except` clauses tell them apart. */
  datatype Exc = NoExc | TransientExc(exc: string) | PermanentExc(exc: string) | OtherExc(exc: string)

  /** What the processor's outcome leaves its task about to do. */
  function Handler(c: Config, m: JobMessage, exc: Exc): Pc {
    match exc
    case NoExc => AtAck
    case TransientExc(e) => if m.attempt >= c.maxAttempts then AtBury(Exhausted(m.attempt, e)) else AtRequeue
    case PermanentExc(e) => AtBury(Permanent(e))
    case OtherExc(e) => AtBury(Unexpected(e))
  }

  /** The run has gone on from `a` to `b`, and task `t` was not cut short in between. */
  ghost predicate Extends(t: TaskId, a: seq<FineStep>, b: seq<FineStep>) {
    a <= b && forall i :: |a| <= i < |b| ==> b[i] != Plain(Abort(t))
  }

  class Cluster {
    const cfg: Config
    var f: Fine
    var script: seq<Beat>
    ghost var log: seq<FineStep>
    ghost var trouble: nat        // calls that raised outside the pipeline, and transitions refused

    /** The state is where the logged run of the machine leads. */
    ghost predicate Valid()
      reads this
    {
      FineLegal(cfg, FINE_INITIAL, log) && FineExec(cfg, FINE_INITIAL, log) == f
    }

    /** Task `t` works on `m` and stands at `pc` with no window open. */
    ghost predicate Owns(t: TaskId, m: JobMessage, pc: Pc)
      reads this
    {
      t < |f.s.tasks| && f.s.tasks[t].msg == m && f.s.tasks[t].pc == pc && t !in f.open
    }

    ghost predicate OwnsSome(t: TaskId, m: JobMessage)
      reads this
    {
      t < |f.s.tasks| && f.s.tasks[t].msg == m
    }

    /** `m` is in the stream. */
    ghost predicate Pointed(m: JobMessage)
      reads this
    {
      HasPointer(f.s, m)
    }

    /** `m` is in the dead-letter stream, for `cause`. */
    ghost predicate Lettered(m: JobMessage, cause: Cause)
      reads this
    {
      HasLetter(f.s, m, cause)
    }

    /** The row of `m` as it is stored. */
    ghost function Row(m: JobMessage): Option<Job>
      reads this
    {
      if m.jobId in f.s.rows then Some(f.s.rows[m.jobId]) else None
    }

    constructor (cfg: Config, script: seq<Beat>)
      ensures Valid() && f == FINE_INITIAL && log == [] && this.cfg == cfg && this.script == script
    {
      this.cfg, this.script := cfg, script;
      f, log, trouble := FINE_INITIAL, [], 0;
    }

    method Take(step: FineStep)
      requires Valid() && FineEnabled(cfg, f, step)
      modifies this`f, this`log
      ensures Valid() && log == old(log) + [step]
      ensures f == FineApply(cfg, old(f), step)
    {
      FineExtend(cfg, FINE_INITIAL, log, step);
      f, log := FineApply(cfg, f, step), log + [step];
    }

    /** The task's own step, other than a window. */
    method Go(t: TaskId, m: JobMessage, step: Step, pc: Pc)
      requires Valid() && OwnsSome(t, m) && Enabled(cfg, f.s, step) && !IsWindow(step)
      requires OfTask(step) && step.task == t && ChangeOf(cfg, f.s, step).move == Goto(t, pc)
      modifies this`f, this`log
      ensures Valid() && log == old(log) + [Plain(step)] && Owns(t, m, pc)
      ensures f.s == Apply(cfg, old(f.s), step)
    {
      Take(Plain(step));
    }

    method NextBeat() returns (beat: Beat)
      modifies this`script
    {
      if script == [] {
        beat := CALM;
      } else {
        beat, script := script[0], script[1..];
      }
    }

    /** What a call with this beat raises. */
    method Raised(beat: Beat) returns (raised: Option<string>)
      modifies this`trouble
      ensures raised.Some? <==> beat.fate != Returns
      ensures trouble == old(trouble) + (if raised.Some? then 1 else 0)
    {
      if beat.fate == Returns {
        raised := None;
      } else {
        raised, trouble := Some(beat.exc), trouble + 1;
      }
    }

    /** Suspends task `t`: everybody else makes the steps of the next beat that are possible. */
    method Await(t: TaskId) returns (beat: Beat)
      requires Valid() && t < |f.s.tasks|
      modifies this
      ensures Valid() && Extends(t, old(log), log)
      ensures t < |f.s.tasks| && f.s.tasks[t] == old(f.s.tasks[t])
      ensures (t in f.open <==> t in old(f.open)) && (t in f.open ==> f.open[t] == old(f.open)[t])
      ensures trouble == old(trouble)
    {
      beat := NextBeat();
      for i := 0 to |beat.others|
        invariant Valid() && Extends(t, old(log), log) && trouble == old(trouble)
        invariant t < |f.s.tasks| && f.s.tasks[t] == old(f.s.tasks[t])
        invariant (t in f.open <==> t in old(f.open)) && (t in f.open ==> f.open[t] == old(f.open)[t])
      {
        Other(t, beat.others[i]);
      }
    }

    /** A step of somebody else, if it is possible: task `t` and its window stand. */
    method Other(t: TaskId, step: FineStep)
      requires Valid() && t < |f.s.tasks|
      modifies this`f, this`log
      ensures Valid() && Extends(t, old(log), log)
      ensures t < |f.s.tasks| && f.s.tasks[t] == old(f.s.tasks[t])
      ensures (t in f.open <==> t in old(f.open)) && (t in f.open ==> f.open[t] == old(f.open)[t])
    {
      if FineEnabled(cfg, f, step) && Actor(step) != Some(t) {
        OthersStand(cfg, f, step, t);
        OthersOpen(cfg, f, step, t);
        Take(step);
      }
    }

    // ------------------------------------------------------ the store calls

    /** XACK of the task's entry. */
    method XAck(t: TaskId, m: JobMessage) returns (raised: Option<string>)
      requires Valid() && OwnsSome(t, m) && (f.s.tasks[t].pc.AtAck? || f.s.tasks[t].pc.AtAckDead?)
      modifies this
      ensures Valid() && Extends(t, old(log), log) && OwnsSome(t, m)
      ensures trouble >= old(trouble) + (if raised.Some? then 1 else 0)
      ensures raised.None? ==> Owns(t, m, AfterAck(old(f.s.tasks[t].pc)))
    {
      var beat := Await(t);
      if beat.fate != Raises { Go(t, m, Ack(t), AfterAck(f.s.tasks[t].pc)); }
      raised := Raised(beat);
    }

    /** XADD to the dead-letter stream. */
    method SendDeadLetter(t: TaskId, m: JobMessage, cause: Cause) returns (raised: Option<string>)
      requires Valid() && Owns(t, m, AtBury(cause))
      modifies this
      ensures Valid() && Extends(t, old(log), log) && OwnsSome(t, m)
      ensures trouble >= old(trouble) + (if raised.Some? then 1 else 0)
      ensures raised.None? ==> Owns(t, m, AtAckDead(cause)) && Lettered(m, cause)
    {
      var beat := Await(t);
      if beat.fate != Raises {
        Go(t, m, Bury(t), AtAckDead(cause));
        assert f.s.dlq[|f.s.dlq| - 1] == DeadLetter(m, cause);
      }
      raised := Raised(beat);
    }

    /** XADD of the next attempt to the work stream. */
    method SendRetry(t: TaskId, m: JobMessage) returns (raised: Option<string>)
      requires Valid() && Owns(t, m, AtRepublish)
      modifies this
      ensures Valid() && Extends(t, old(log), log) && OwnsSome(t, m)
      ensures trouble >= old(trouble) + (if raised.Some? then 1 else 0)
      ensures raised.None? ==> Owns(t, m, AtAck) && Pointed(JobMessage(m.jobId, m.jobType, m.attempt + 1))
    {
      var beat := Await(t);
      if beat.fate != Raises {
        Go(t, m, Republish(t), AtAck);
        assert f.s.stream[|f.s.stream| - 1] == JobMessage(m.jobId, m.jobType, m.attempt + 1);
      }
      raised := Raised(beat);
    }

    /** The repository's read, outside a window. */
    method AlreadyTerminal(t: TaskId, m: JobMessage) returns (r: Result<bool, string>)
      requires Valid() && Owns(t, m, AtGuard)
      modifies this
      ensures Valid() && Extends(t, old(log), log) && OwnsSome(t, m)
      ensures trouble >= old(trouble) + (if r.Err? then 1 else 0)
      ensures r.Ok? ==> Owns(t, m, if r.value then AtAck else AtBegin)
      ensures r.Ok? ==> (r.value <==> Row(m).None? || Row(m).value.status == Success || Row(m).value.status == Failed)
    {
      var beat := Await(t);
      var raised := Raised(beat);
      if raised.Some? { return Err(raised.value); }
      r := Ok(if m.jobId in f.s.rows then f.s.rows[m.jobId].IsTerminal() else true);
      Go(t, m, Guard(t), if r.value then AtAck else AtBegin);
    }

    /** The repository's read that starts a window: the row, as the task will work on it. */
    method RepoGet(t: TaskId, m: JobMessage, pc: Pc) returns (r: Result<Option<Job>, string>)
      requires Valid() && Owns(t, m, pc) && AtWindow(pc)
      modifies this
      ensures Valid() && Extends(t, old(log), log) && OwnsSome(t, m)
      ensures trouble >= old(trouble) + (if r.Err? then 1 else 0)
      ensures r.Err? ==> Owns(t, m, pc)
      ensures r.Ok? ==> r.value == Row(m)
      ensures r.Ok? ==> var after := AfterWindow(pc, r.value);
                        if after.0.Some? then r.value.Some? && t in f.open && f.open[t] == r.value.value
                          && f.s.tasks[t].pc == pc
                        else Owns(t, m, after.1)
    {
      var beat := Await(t);
      var raised := Raised(beat);
      if raised.Some? { return Err(raised.value); }
      r := Ok(if m.jobId in f.s.rows then Some(f.s.rows[m.jobId]) else None);
      assert r.value == RowOf(f.s, t);
      Take(Get(t));
    }

    /** The effect of a window's write: the row is replaced and the task moves on. */
    method WriteBack(t: TaskId, m: JobMessage, pc: Pc, job: Job)
      requires Valid() && OwnsSome(t, m) && f.s.tasks[t].pc == pc && AtWindow(pc) && t in f.open
      requires AfterWindow(pc, Some(f.open[t])).0 == Some(job)
      modifies this`f, this`log
      ensures Valid() && Extends(t, old(log), log)
      ensures Owns(t, m, AfterWindow(pc, Some(old(f.open)[t])).1) && m.jobId in f.s.rows && f.s.rows[m.jobId] == job
    {
      FineRunKeepsIntact(cfg, FINE_INITIAL, log);
      UpdateLands(cfg, f, t);
      Take(Update(t));
      assert log[|old(log)|] == Update(t);
    }

    /** The repository's write that ends a window. The caller hands over its own copy of the row. */
    method RepoUpdate(t: TaskId, m: JobMessage, pc: Pc, job: Job) returns (fate: Fate, exc: string)
      requires Valid() && OwnsSome(t, m) && f.s.tasks[t].pc == pc && AtWindow(pc) && t in f.open
      requires AfterWindow(pc, Some(f.open[t])).0 == Some(job)
      modifies this
      ensures Valid() && Extends(t, old(log), log) && OwnsSome(t, m)
      ensures trouble >= old(trouble) + (if fate == Returns then 0 else 1)
      ensures fate == Raises ==> f.s.tasks[t].pc == pc
      ensures fate != Raises ==>
                Owns(t, m, AfterWindow(pc, Some(old(f.open)[t])).1) && m.jobId in f.s.rows && f.s.rows[m.jobId] == job
    {
      var beat := Await(t);
      if beat.fate != Raises {
        WriteBack(t, m, pc, job);
      }
      var raised := Raised(beat);
      fate, exc := beat.fate, beat.exc;
    }

    /** A call inside the begin window raised: the consumer will catch it as unexpected. */
    method AbandonBegin(t: TaskId, m: JobMessage, exc: string)
      requires Valid() && OwnsSome(t, m) && f.s.tasks[t].pc == AtBegin
      modifies this`f, this`log
      ensures Valid() && Extends(t, old(log), log) && Owns(t, m, AtBury(Unexpected(exc)))
      ensures trouble == old(trouble)
    {
      Go(t, m, BeginRaises(t, exc), AtBury(Unexpected(exc)));
    }

    // ------------------------------------------------------- JobProcessor

    /** JobProcessor.process up to the pipeline: load, guard, mark running, persist. */
    method Load(t: TaskId, m: JobMessage) returns (exc: Exc, job: InferenceJob?)
      requires Valid() && Owns(t, m, AtBegin)
      modifies this
      ensures trouble >= old(trouble)
      ensures Valid() && Extends(t, old(log), log)
      ensures job == null ==> Owns(t, m, Handler(cfg, m, exc))
      ensures job == null && exc == NoExc ==> Row(m).None? || Row(m).value.IsTerminal()
      ensures job != null ==> exc == NoExc && Row(m) == Some(job.View())
      ensures exc == NoExc || exc.OtherExc?
      ensures job != null ==> fresh(job) && job.status == Running && Owns(t, m, AtStart(job.View()))
    {
      exc, job := NoExc, null;
      var row := RepoGet(t, m, AtBegin);
      if row.Err? {
        AbandonBegin(t, m, row.error);
        return OtherExc(row.error), null;
      }
      if row.value.None? { return; }
      if row.value.value.IsTerminal() { return; }
      var copy := new InferenceJob.FromRecord(row.value.value);
      var raised := copy.Start();
      if raised.Some? { return OtherExc("InvalidTransition"), null; }
      exc := SaveRunning(t, m, copy);
      if exc == NoExc { job := copy; }
    }

    /** The begin write. */
    method SaveRunning(t: TaskId, m: JobMessage, job: InferenceJob) returns (exc: Exc)
      requires Valid() && OwnsSome(t, m) && f.s.tasks[t].pc == AtBegin && t in f.open
      requires AfterBegin(Some(f.open[t])) == (Some(job.View()), AtStart(job.View()))
      modifies this
      ensures trouble >= old(trouble)
      ensures Valid() && Extends(t, old(log), log)
      ensures Owns(t, m, if exc == NoExc then AtStart(job.View()) else Handler(cfg, m, exc))
      ensures exc == NoExc ==> Row(m) == Some(job.View())
      ensures exc == NoExc || exc.OtherExc?
    {
      var fate, text := RepoUpdate(t, m, AtBegin, job.View());
      exc := if fate == Returns then NoExc else OtherExc(text);
      if fate == Raises {
        AbandonBegin(t, m, text);
      } else if fate == RaisesLate {
        LoseBegin(t, m, job, text);
      }
    }

    /** The begin write landed, but its call raised. */
    method LoseBegin(t: TaskId, m: JobMessage, job: InferenceJob, exc: string)
      requires Valid() && Owns(t, m, AtStart(job.View()))
      modifies this`f, this`log
      ensures Valid() && Extends(t, old(log), log) && Owns(t, m, AtBury(Unexpected(exc)))
    {
      Go(t, m, BeginLost(t, exc), AtBury(Unexpected(exc)));
    }

    /** JobProcessor.process: the row is left running on every failure. */
    method Process(t: TaskId, m: JobMessage) returns (exc: Exc)
      requires Valid() && Owns(t, m, AtBegin)
      modifies this
      ensures trouble >= old(trouble)
      ensures Valid() && Extends(t, old(log), log)
      ensures Owns(t, m, Handler(cfg, m, exc))
      ensures exc == NoExc ==> Row(m).None? || Row(m).value.IsTerminal()
    {
      var job: InferenceJob?;
      exc, job := Load(t, m);
      if job == null { return; }
      var outcome := RunPipeline(t, m, job);
      match outcome {
        case TransientError(e) => exc := TransientExc(e);
        case PermanentError(e) => exc := PermanentExc(e);
        case Succeeded(ref, ms) =>
          var raised := job.Succeed(ref, Some(ms));
          exc := SaveSuccess(t, m, job);
      }
    }

    /** The pipeline call; what it raises besides a transient error counts as permanent. */
    method RunPipeline(t: TaskId, m: JobMessage, job: InferenceJob) returns (outcome: PipelineOutcome)
      requires Valid() && job.status == Running && Owns(t, m, AtStart(job.View()))
      modifies this
      ensures trouble >= old(trouble)
      ensures Valid() && Extends(t, old(log), log)
      ensures match outcome
              case Succeeded(ref, ms) => Owns(t, m, AtCommit(MarkSuccess(job.View(), ref, Some(ms)).value))
              case TransientError(e) => Owns(t, m, Handler(cfg, m, TransientExc(e)))
              case PermanentError(e) => Owns(t, m, Handler(cfg, m, PermanentExc(e)))
    {
      CallPipeline(t, m, job);
      var beat := Await(t);
      outcome := beat.outcome;
      EndPipeline(t, m, job, outcome);
    }

    /** What the pipeline's outcome leaves the task about to do. */
    method EndPipeline(t: TaskId, m: JobMessage, job: InferenceJob, outcome: PipelineOutcome)
      requires Valid() && job.status == Running && Owns(t, m, Executing(job.View()))
      modifies this`f, this`log
      ensures Valid() && Extends(t, old(log), log)
      ensures match outcome
              case Succeeded(ref, ms) => Owns(t, m, AtCommit(MarkSuccess(job.View(), ref, Some(ms)).value))
              case TransientError(e) => Owns(t, m, Handler(cfg, m, TransientExc(e)))
              case PermanentError(e) => Owns(t, m, Handler(cfg, m, PermanentExc(e)))
    {
      Go(t, m, Finish(t, outcome), AfterPipeline(cfg, m, job.View(), outcome));
    }

    method CallPipeline(t: TaskId, m: JobMessage, job: InferenceJob)
      requires Valid() && Owns(t, m, AtStart(job.View()))
      modifies this`f, this`log
      ensures Valid() && Extends(t, old(log), log) && Owns(t, m, Executing(job.View()))
    {
      Go(t, m, StartPipeline(t), Executing(job.View()));
    }

    /** The success write: a blind write of the task's copy. */
    method SaveSuccess(t: TaskId, m: JobMessage, job: InferenceJob) returns (exc: Exc)
      requires Valid() && Owns(t, m, AtCommit(job.View()))
      modifies this
      ensures trouble >= old(trouble)
      ensures Valid() && Extends(t, old(log), log)
      ensures Owns(t, m, Handler(cfg, m, exc))
      ensures exc == NoExc ==> Row(m) == Some(job.View())
      ensures exc == NoExc || exc.OtherExc?
    {
      var beat := Await(t);
      FineRunKeepsIntact(cfg, FINE_INITIAL, log);
      assert TaskOk(cfg, f.s, f.s.tasks[t]) && PointerOk(cfg, f.s.rows, m);
      var write := match beat.fate
                   case Returns => Written
                   case Raises => WriteFailed(beat.exc)
                   case RaisesLate => WriteLost(beat.exc);
      exc := if write.Written? then NoExc else OtherExc(beat.exc);
      Go(t, m, Commit(t, write), Handler(cfg, m, exc));
    }

    // ------------------------------------------------------- StreamConsumer

    method RouteToDlq(t: TaskId, m: JobMessage, cause: Cause) returns (raised: Option<string>)
      requires Valid() && Owns(t, m, AtBury(cause))
      modifies this
      ensures Valid() && Extends(t, old(log), log) && OwnsSome(t, m)
      ensures trouble >= old(trouble) + (if raised.Some? then 1 else 0)
      ensures raised.None? ==> Owns(t, m, AfterAck(AtAckDead(cause))) && Lettered(m, cause)
    {
      raised := SendDeadLetter(t, m, cause);
      if raised.Some? { return; }
      ghost var sent := log;
      raised := XAck(t, m);
      LetterStays(cfg, sent, log, m, cause);
    }

    method RequeueJob(t: TaskId, m: JobMessage) returns (raised: Option<string>)
      requires Valid() && Owns(t, m, AtRequeue)
      modifies this
      ensures Valid() && Extends(t, old(log), log) && OwnsSome(t, m)
      ensures trouble >= old(trouble) + (if raised.Some? then 1 else 0)
      ensures raised.None? ==> Owns(t, m, AtRepublish)
      ensures raised.None? && Row(m).Some? ==> Row(m).value.status == Pending
    {
      var row := RepoGet(t, m, AtRequeue);
      if row.Err? { return Some(row.error); }
      if row.value.None? { return None; }
      var job := new InferenceJob.FromRecord(row.value.value);
      var refused := job.Retry();
      if refused.Some? {
        trouble := trouble + 1;
        return Some("InvalidTransition");
      }
      var fate, exc := RepoUpdate(t, m, AtRequeue, job.View());
      raised := if fate == Returns then None else Some(exc);
    }

    method FailJob(t: TaskId, m: JobMessage, cause: Cause, error: string) returns (raised: Option<string>)
      requires Valid() && Owns(t, m, AtFail(cause)) && error == ErrorText(cause)
      modifies this
      ensures Valid() && Extends(t, old(log), log) && OwnsSome(t, m)
      ensures trouble >= old(trouble) + (if raised.Some? then 1 else 0)
      ensures raised.None? ==> Owns(t, m, Done)
      ensures raised.None? && Row(m).Some? ==> Row(m).value.status == Failed && Row(m).value.error == Some(error)
    {
      var row := RepoGet(t, m, AtFail(cause));
      if row.Err? { return Some(row.error); }
      if row.value.None? { return None; }
      var job := new InferenceJob.FromRecord(row.value.value);
      var refused := job.FailWith(error, None);
      if refused.Some? {
        trouble := trouble + 1;
        return Some("InvalidTransition");
      }
      var fate, exc := RepoUpdate(t, m, AtFail(cause), job.View());
      raised := if fate == Returns then None else Some(exc);
    }

    /** Retry while attempts remain: row, then pointer, then ack. */
    method OnTransient(t: TaskId, m: JobMessage, e: string) returns (raised: Option<string>)
      requires Valid() && Owns(t, m, Handler(cfg, m, TransientExc(e)))
      modifies this
      ensures Valid() && Extends(t, old(log), log) && OwnsSome(t, m)
      ensures trouble >= old(trouble) + (if raised.Some? then 1 else 0)
      ensures raised.None? ==> Owns(t, m, Done)
      ensures raised.None? && m.attempt < cfg.maxAttempts ==> Pointed(JobMessage(m.jobId, m.jobType, m.attempt + 1))
      ensures raised.None? && m.attempt >= cfg.maxAttempts ==> Lettered(m, Exhausted(m.attempt, e))
      ensures raised.None? && m.attempt >= cfg.maxAttempts && Row(m).Some? ==>
                Row(m).value.error == Some("exhausted after " + Text.Decimal(m.attempt) + ": " + e)
    {
      if m.attempt >= cfg.maxAttempts {
        raised := BuryAndFail(t, m, Exhausted(m.attempt, e), "exhausted after " + Text.Decimal(m.attempt) + ": " + e);
        return;
      }
      raised := RequeueJob(t, m);
      if raised.Some? { return; }
      raised := SendRetry(t, m);
      if raised.Some? { return; }
      ghost var sent := log;
      raised := XAck(t, m);
      PointerStays(cfg, sent, log, JobMessage(m.jobId, m.jobType, m.attempt + 1));
    }

    method BuryAndFail(t: TaskId, m: JobMessage, cause: Cause, error: string) returns (raised: Option<string>)
      requires Valid() && Owns(t, m, AtBury(cause)) && !cause.OverDelivered? && error == ErrorText(cause)
      modifies this
      ensures Valid() && Extends(t, old(log), log) && OwnsSome(t, m)
      ensures trouble >= old(trouble) + (if raised.Some? then 1 else 0)
      ensures raised.None? ==> Owns(t, m, Done) && Lettered(m, cause)
      ensures raised.None? && Row(m).Some? ==> Row(m).value.status == Failed && Row(m).value.error == Some(error)
    {
      raised := RouteToDlq(t, m, cause);
      if raised.Some? { return; }
      ghost var sent := log;
      raised := FailJob(t, m, cause, error);
      LetterStays(cfg, sent, log, m, cause);
    }

    /** The body of the outer `try`: guard, process, route the outcome. */
    method Route(t: TaskId, m: JobMessage) returns (raised: Option<string>)
      requires Valid() && Owns(t, m, AtGuard)
      modifies this
      ensures Valid() && Extends(t, old(log), log) && OwnsSome(t, m)
      ensures trouble >= old(trouble) + (if raised.Some? then 1 else 0)
      ensures raised.None? ==> Owns(t, m, Done)
    {
      var terminal := AlreadyTerminal(t, m);
      if terminal.Err? { return Some(terminal.error); }
      if terminal.value {
        raised := XAck(t, m);
        return;
      }
      var exc := Process(t, m);
      raised := Settle(t, m, exc);
    }

    /** The `except` clauses: one handler per outcome of the processor. */
    method Settle(t: TaskId, m: JobMessage, exc: Exc) returns (raised: Option<string>)
      requires Valid() && Owns(t, m, Handler(cfg, m, exc))
      modifies this
      ensures Valid() && Extends(t, old(log), log) && OwnsSome(t, m)
      ensures trouble >= old(trouble) + (if raised.Some? then 1 else 0)
      ensures raised.None? ==> Owns(t, m, Done)
      ensures raised.None? && exc.TransientExc? && m.attempt < cfg.maxAttempts ==>
                Pointed(JobMessage(m.jobId, m.jobType, m.attempt + 1))
      ensures raised.None? && exc.TransientExc? && m.attempt >= cfg.maxAttempts ==>
              Lettered(m, Exhausted(m.attempt, exc.exc))
      ensures raised.None? && exc.PermanentExc? ==> Lettered(m, Permanent(exc.exc))
      ensures raised.None? && exc.OtherExc? ==> Lettered(m, Unexpected(exc.exc))
      ensures raised.None? && (exc.PermanentExc? || exc.OtherExc?) && Row(m).Some? ==>
                Row(m).value.status == Failed && Row(m).value.error == Some(exc.exc)
    {
      match exc {
        case TransientExc(e) => raised := OnTransient(t, m, e);
        case PermanentExc(e) => raised := BuryAndFail(t, m, Permanent(e), e);
        case OtherExc(e) => raised := BuryAndFail(t, m, Unexpected(e), e);
        case NoExc => raised := XAck(t, m);
      }
    }

    /**
     StreamConsumer._process_and_route: whatever the others do and whichever calls
     fail, the run so far stays a legal run of the machine and the task is over;
     if no call raised and no transition was refused, it is over by its own last step.
     */
    method ProcessAndRoute(t: TaskId, m: JobMessage)
      requires Valid() && Owns(t, m, AtGuard)
      modifies this
      ensures Valid() && old(log) <= log && Owns(t, m, Done)
      ensures trouble == old(trouble) ==> Extends(t, old(log), log)
    {
      var raised := Route(t, m);
      if f.s.tasks[t].pc != Done {
        Go(t, m, Abort(t), Done);
      } else {
        FineRunKeepsIntact(cfg, FINE_INITIAL, log);
        assert t in f.open ==> OpenOk(f, t, f.open[t]);
      }
    }

    // ------------------------------------------------------ IngestionService

    /** Suspends the submission of `job`: everybody else steps, nobody touches the submission itself. */
    method AwaitSubmission(job: JobId) returns (beat: Beat)
      requires Valid() && job in f.s.submitting && job in f.s.rows
      modifies this
      ensures Valid() && old(log) <= log && PublishCalls(log, job) == old(PublishCalls(log, job))
              && trouble == old(trouble)
      ensures job in f.s.submitting && f.s.submitting[job] == old(f.s.submitting[job])
      ensures job in f.s.rows && SameIdentity(f.s.rows[job], old(f.s.rows[job]))
    {
      beat := NextBeat();
      for i := 0 to |beat.others|
        invariant Valid() && old(log) <= log && PublishCalls(log, job) == old(PublishCalls(log, job))
                  && trouble == old(trouble)
        invariant job in f.s.submitting && f.s.submitting[job] == old(f.s.submitting[job])
        invariant job in f.s.rows && SameIdentity(f.s.rows[job], old(f.s.rows[job]))
      {
        var step := beat.others[i];
        if FineEnabled(cfg, f, step) && !EndsSubmission(job, step) {
          FineRunKeepsIntact(cfg, FINE_INITIAL, log);
          SubmissionStands(cfg, f, step, job);
          PublishCallsAppend(log, step, job);
          Take(step);
        }
      }
    }

    /** The submission's own publish call. */
    method CallPublish(id: JobId, outcome: PublishOutcome)
      requires Valid() && id in f.s.submitting && id in f.s.rows
      modifies this`f, this`log
      ensures Valid() && log == old(log) + [Plain(Publish(id, outcome))]
      ensures f.s == Perform(old(f.s), PublishChange(old(f.s), id, outcome))
      ensures PublishCalls(log, id) == old(PublishCalls(log, id)) + 1
    {
      PublishCallsAppend(log, Plain(Publish(id, outcome)), id);
      Take(Plain(Publish(id, outcome)));
    }

    /**
     The whole of IngestionService.submit: the row, then up to `tries` publish
     calls. It fails only if a call failed; when it returns, the row and its
     first pointer are stored.
     */
    method Submit(id: JobId, jobType: JobType, payload: Payload, tries: nat) returns (r: Result<JobId, string>)
      requires Valid() && id !in f.s.rows && tries >= 1
      modifies this
      ensures Valid() && old(log) <= log && id !in f.s.submitting
      ensures r.Ok? ==> r.value == id && Stored(id, NewJob(id, jobType, payload)) && Pointed(JobMessage(id, jobType, 1))
      ensures r.Ok? ==> f.s.rows[id].id == id && f.s.rows[id].jobType == jobType && f.s.rows[id].payload == payload
      ensures r.Err? ==> trouble > old(trouble)
    {
      var job := new InferenceJob.New(id, jobType, payload);
      var beat := NextBeat();
      var raised := Raised(beat);
      if beat.fate == Raises {
        FineRunKeepsIntact(cfg, FINE_INITIAL, log);
        assert id !in f.s.submitting;
        return Err(beat.exc);
      }
      StoreNew(job, tries);
      if beat.fate == RaisesLate {
        Take(Plain(Abandon(id)));
        return Err(beat.exc);
      }
      r := PublishRetrying(id, jobType, payload, tries);
    }

    /** The repository's insert. */
    method StoreNew(job: InferenceJob, tries: nat)
      requires Valid() && job.id !in f.s.rows && tries >= 1 && job.View() == NewJob(job.id, job.jobType, job.payload)
      modifies this`f, this`log
      ensures Valid() && old(log) <= log && job.id in f.s.rows && f.s.rows[job.id] == job.View()
      ensures job.id in f.s.submitting && f.s.submitting[job.id] == tries
    {
      Take(Plain(Step.Submit(job.id, job.jobType, job.payload, tries)));
    }

    /** The row of `id` has the immutable columns of `job`. */
    ghost predicate Stored(id: JobId, job: Job)
      reads this
    {
      id in f.s.rows && SameIdentity(job, f.s.rows[id])
    }

    /**
     Retries only transient failures, at most `tries` calls in all: it gives up
     after `tries` calls, or earlier on the first failure that is not transient.
     */
    method PublishRetrying(id: JobId, jobType: JobType, payload: Payload, tries: nat) returns (r: Result<JobId, string>)
      requires Valid() && Stored(id, NewJob(id, jobType, payload))
      requires id in f.s.submitting && f.s.submitting[id] == tries >= 1
      modifies this
      ensures Valid() && old(log) < log && id !in f.s.submitting
      ensures PublishCalls(log, id) <= old(PublishCalls(log, id)) + tries
      ensures r.Ok? ==> r.value == id && Stored(id, NewJob(id, jobType, payload)) && Pointed(JobMessage(id, jobType, 1))
      ensures r.Ok? ==> log[|log| - 1] == Plain(Publish(id, Published))
      ensures r.Err? ==> trouble > old(trouble)
      ensures r.Err? ==>
                log[|log| - 1] in {Plain(Publish(id, PublishPermanent(true))),
                                    Plain(Publish(id, PublishPermanent(false)))}
                         || PublishCalls(log, id) == old(PublishCalls(log, id)) + tries
    {
      var left := tries;
      r := Err("");
      while left > 0
        invariant Valid() && old(log) <= log && r.Err? && left <= tries
        invariant PublishCalls(log, id) + left == old(PublishCalls(log, id)) + tries
        invariant left < tries ==> old(log) < log && trouble > old(trouble)
        invariant left == tries ==> trouble == old(trouble)
        invariant left == 0 ==> id !in f.s.submitting
        invariant left > 0 ==>
                    id in f.s.submitting && f.s.submitting[id] == left && Stored(id, NewJob(id, jobType, payload))
      {
        var outcome, exc := TryPublish(id, NewJob(id, jobType, payload));
        if outcome.Published? { return Ok(id); }
        r := Err(exc);
        if outcome.PublishPermanent? { return; }
        left := left - 1;
      }
    }

    /** One publish call and how it ended. */
    method TryPublish(id: JobId, ghost job: Job) returns (outcome: PublishOutcome, exc: string)
      requires Valid() && Stored(id, job) && id == job.id && id in f.s.submitting && f.s.submitting[id] >= 1
      modifies this
      ensures Valid() && old(log) < log && log[|log| - 1] == Plain(Publish(id, outcome))
      ensures PublishCalls(log, id) == old(PublishCalls(log, id)) + 1
      ensures trouble == old(trouble) + if outcome.Published? then 0 else 1
      ensures Stored(id, job)
      ensures outcome.Published? ==> id !in f.s.submitting && Pointed(JobMessage(id, job.jobType, 1))
      ensures outcome.PublishPermanent? ==> id !in f.s.submitting
      ensures outcome.PublishTransient? ==>
                var left := old(f.s.submitting[id]) - 1;
                if left == 0 then id !in f.s.submitting else id in f.s.submitting && f.s.submitting[id] == left
    {
      var beat := AwaitSubmission(id);
      var raised := Raised(beat);
      var landed := beat.fate == RaisesLate;
      exc := beat.exc;
      outcome := if raised.None? then Published
                 else if beat.outcome.TransientError? then PublishTransient(landed)
                 else PublishPermanent(landed);
      CallPublish(id, outcome);
      if outcome.Published? { assert f.s.stream[|f.s.stream| - 1] == JobMessage(id, job.jobType, 1); }
    }
  }

  predicate HasPointer(s: State, m: JobMessage) {
    exists e :: 0 <= e < |s.stream| && s.stream[e] == m
  }

  predicate HasLetter(s: State, m: JobMessage, cause: Cause) {
    exists i :: 0 <= i < |s.dlq| && s.dlq[i] == DeadLetter(m, cause)
  }

  lemma LetterStays(c: Config, a: seq<FineStep>, b: seq<FineStep>, m: JobMessage, cause: Cause)
    requires a <= b && FineLegal(c, FINE_INITIAL, a) && FineLegal(c, FINE_INITIAL, b)
    requires HasLetter(FineExec(c, FINE_INITIAL, a).s, m, cause)
    ensures HasLetter(FineExec(c, FINE_INITIAL, b).s, m, cause)
  {
    var s, s' := FineExec(c, FINE_INITIAL, a).s, FineExec(c, FINE_INITIAL, b).s;
    LongerRunGrows(c, a, b);
    var i :| 0 <= i < |s.dlq| && s.dlq[i] == DeadLetter(m, cause);
    assert s'.dlq[i] == s.dlq[i];
  }

  lemma PointerStays(c: Config, a: seq<FineStep>, b: seq<FineStep>, m: JobMessage)
    requires a <= b && FineLegal(c, FINE_INITIAL, a) && FineLegal(c, FINE_INITIAL, b)
    requires HasPointer(FineExec(c, FINE_INITIAL, a).s, m)
    ensures HasPointer(FineExec(c, FINE_INITIAL, b).s, m)
  {
    var s, s' := FineExec(c, FINE_INITIAL, a).s, FineExec(c, FINE_INITIAL, b).s;
    LongerRunGrows(c, a, b);
    var e :| 0 <= e < |s.stream| && s.stream[e] == m;
    assert s'.stream[e] == s.stream[e];
  }

  /** How many publish calls the submission of `id` made. */
  function PublishCalls(log: seq<FineStep>, id: JobId): nat {
    if log == [] then 0
    else PublishCalls(log[..|log| - 1], id) + if IsPublish(log[|log| - 1], id) then 1 else 0
  }

  predicate IsPublish(step: FineStep, id: JobId) {
    step.Plain? && step.step.Publish? && step.step.job == id
  }

  lemma PublishCallsAppend(log: seq<FineStep>, step: FineStep, id: JobId)
    ensures PublishCalls(log + [step], id) == PublishCalls(log, id) + if IsPublish(step, id) then 1 else 0
  {
    assert (log + [step])[..|log|] == log;
  }

  predicate EndsSubmission(job: JobId, step: FineStep) {
    step.Plain? && (step.step.Publish? || step.step.Abandon?) && step.step.job == job
  }

  lemma SubmissionStands(c: Config, f: Fine, step: FineStep, job: JobId)
    requires FineIntact(c, f) && FineEnabled(c, f, step) && !EndsSubmission(job, step)
    requires job in f.s.submitting && job in f.s.rows
    ensures job in FineApply(c, f, step).s.submitting && FineApply(c, f, step).s.submitting[job] == f.s.submitting[job]
    ensures job in FineApply(c, f, step).s.rows && SameIdentity(f.s.rows[job], FineApply(c, f, step).s.rows[job])
  {
    FineStepGrows(c, f, step);
    if step.Plain? { OthersSubmit(c, f.s, step.step, job); }
  }

  lemma OthersSubmit(c: Config, s: State, step: Step, job: JobId)
    requires Enabled(c, s, step) && !EndsSubmission(job, Plain(step)) && job in s.submitting && job in s.rows
    ensures job in ChangeOf(c, s, step).submitting && ChangeOf(c, s, step).submitting[job] == s.submitting[job]
  {
  }

  /** The update of an open window writes the task's own row and moves the task on. */
  lemma UpdateLands(c: Config, f: Fine, t: TaskId)
    requires FineIntact(c, f) && t in f.open
    ensures OpenOk(f, t, f.open[t]) && FineEnabled(c, f, Update(t))
    ensures AfterWindow(f.s.tasks[t].pc, Some(f.open[t])).0.Some?
    ensures var after, f' := AfterWindow(f.s.tasks[t].pc, Some(f.open[t])), FineApply(c, f, Update(t));
            && t !in f'.open && t < |f'.s.tasks| && f'.s.tasks[t] == f.s.tasks[t].(pc := after.1)
            && f.s.tasks[t].msg.jobId in f'.s.rows && f'.s.rows[f.s.tasks[t].msg.jobId] == after.0.value
  {
    assert OpenOk(f, t, f.open[t]);
    assert AfterWindow(f.s.tasks[t].pc, Some(f.open[t])).0.value.id == f.s.tasks[t].msg.jobId;
  }

  lemma OthersOpen(c: Config, f: Fine, step: FineStep, t: TaskId)
    requires FineEnabled(c, f, step) && Actor(step) != Some(t)
    ensures t in FineApply(c, f, step).open <==> t in f.open
  {
  }

  /** What the machine's theorems say of the code's runs, as long as no write was unsettling. */
  lemma CodeLosesNoJob(w: Cluster, e: EntryId)
    requires w.Valid() && NoneUnsettling(w.cfg, FINE_INITIAL, w.log) && e < |w.f.s.stream|
    ensures var s := w.f.s;
            var j := s.stream[e].jobId;
            IsTerminalRow(s, j) || DeadLettered(s, j) || StillQueued(s, j)
  {
    NoJobIsLostFine(w.cfg, w.log, e);
  }
}
