/**
 The job aggregate: its record, the status graph, and the guarded transitions
 (src/app/domain/models.py).

 `Job` is the record as a value: what the repository stores and what a detached
 snapshot holds. `InferenceJob` is the mutable object the services work on; each
 of its methods is specified by the function of the same name on `Job`.
 */
module Jobs {
  import opened Wrappers

  const UUID_BOUND: int := 0x1_0000_0000_0000_0000_0000_0000_0000_0000

  /** A 128-bit identifier. */
  type JobId = u: int | 0 <= u < UUID_BOUND

  datatype JobStatus = Pending | Running | Success | Failed

  datatype JobType = RagQuery | EmbedDocument

  /** The JSON values a payload field can hold, as far as the pipelines distinguish them. */
  datatype Json = JText(text: string) | JInt(int) | JFloat(real) | JBool(bool) | JOther

  type Payload = map<string, Json>

  datatype InvalidTransition = InvalidTransition(current: JobStatus, target: JobStatus)

  datatype Job = Job(
    id: JobId,
    jobType: JobType,
    payload: Payload,
    status: JobStatus,
    attempts: nat,
    resultRef: Option<string>,
    error: Option<string>,
    durationMs: Option<int>)
  {
    predicate IsTerminal() { status in TERMINAL }
  }

  const TERMINAL: set<JobStatus> := {Success, Failed}

  /** The legal transition graph. */
  function Allowed(status: JobStatus): set<JobStatus> {
    match status
    case Pending => {Running}
    case Running => {Success, Failed, Pending}
    case Success => {}
    case Failed => {}
  }

  function NewJob(id: JobId, jobType: JobType, payload: Payload): Job {
    Job(id, jobType, payload, Pending, 0, None, None, None)
  }

  function Require(job: Job, target: JobStatus): Result<Job, InvalidTransition> {
    if target in Allowed(job.status) then Ok(job.(status := target))
    else Err(InvalidTransition(job.status, target))
  }

  function MarkRunning(job: Job): Result<Job, InvalidTransition> {
    match Require(job, Running)
    case Err(e) => Err(e)
    case Ok(j) => Ok(j.(attempts := j.attempts + 1, error := None))
  }

  function MarkSuccess(job: Job, resultRef: string, durationMs: Option<int>): Result<Job, InvalidTransition> {
    match Require(job, Success)
    case Err(e) => Err(e)
    case Ok(j) => Ok(j.(resultRef := Some(resultRef),
                        durationMs := if durationMs.Some? then durationMs else j.durationMs))
  }

  function MarkFailed(job: Job, error: string, durationMs: Option<int>): Result<Job, InvalidTransition> {
    match Require(job, Failed)
    case Err(e) => Err(e)
    case Ok(j) => Ok(j.(error := Some(error),
                        durationMs := if durationMs.Some? then durationMs else j.durationMs))
  }

  function Requeue(job: Job): Result<Job, InvalidTransition> {
    Require(job, Pending)
  }

  /** What a stored record promises its readers: an outcome field is set exactly in its own status. */
  predicate Consistent(job: Job) {
    && (job.resultRef.Some? <==> job.status == Success)
    && (job.durationMs.Some? <==> job.status == Success)
    && (job.error.Some? <==> job.status == Failed)
  }

  /** The mutable aggregate root. */
  class InferenceJob {
    const id: JobId
    const jobType: JobType
    const payload: Payload
    var status: JobStatus
    var attempts: nat
    var resultRef: Option<string>
    var error: Option<string>
    var durationMs: Option<int>

    function View(): (job: Job)
      reads this
    {
      Job(id, jobType, payload, status, attempts, resultRef, error, durationMs)
    }

    constructor New(id: JobId, jobType: JobType, payload: Payload)
      ensures View() == NewJob(id, jobType, payload)
      ensures this.id == id && this.jobType == jobType && this.payload == payload
      ensures status == Pending && attempts == 0 && resultRef == None && error == None && durationMs == None
    {
      this.id, this.jobType, this.payload := id, jobType, payload;
      status, attempts := Pending, 0;
      resultRef, error, durationMs := None, None, None;
    }

    /** A detached object holding a stored record. */
    constructor FromRecord(job: Job)
      ensures View() == job
      ensures id == job.id && jobType == job.jobType && payload == job.payload && status == job.status
      ensures attempts == job.attempts && resultRef == job.resultRef && error == job.error
              && durationMs == job.durationMs
    {
      id, jobType, payload := job.id, job.jobType, job.payload;
      status, attempts := job.status, job.attempts;
      resultRef, error, durationMs := job.resultRef, job.error, job.durationMs;
    }

    /** Moves to `target` or raises and leaves the object as it was. */
    method RequireStatus(target: JobStatus) returns (raised: Option<InvalidTransition>)
      modifies this`status
      ensures raised == match Require(old(View()), target) case Err(e) => Some(e) case Ok(_) => None
      ensures status == if raised.None? then target else old(status)
      ensures raised.None? <==>
              (old(status), target) in {(Pending, Running), (Running, Success), (Running, Failed), (Running, Pending)}
      ensures raised.Some? ==> raised.value == InvalidTransition(old(status), target)
    {
      if target !in Allowed(status) {
        return Some(InvalidTransition(status, target));
      }
      status := target;
      raised := None;
    }

    method Start() returns (raised: Option<InvalidTransition>)
      modifies this
      ensures match MarkRunning(old(View()))
              case Ok(job) => raised == None && View() == job
              case Err(e) => raised == Some(e) && View() == old(View())
      ensures raised.None? <==> old(status) == Pending
      ensures raised.None? ==> status == Running && attempts == old(attempts) + 1 && error == None
      ensures resultRef == old(resultRef) && durationMs == old(durationMs)
    {
      raised := RequireStatus(Running);
      if raised.Some? { return; }
      attempts := attempts + 1;
      error := None;
    }

    method Succeed(ref: string, ms: Option<int>) returns (raised: Option<InvalidTransition>)
      modifies this
      ensures match MarkSuccess(old(View()), ref, ms)
              case Ok(job) => raised == None && View() == job
              case Err(e) => raised == Some(e) && View() == old(View())
      ensures raised.None? <==> old(status) == Running
      ensures raised.None? ==> status == Success && resultRef == Some(ref)
                               && durationMs == if ms.Some? then ms else old(durationMs)
      ensures attempts == old(attempts) && error == old(error)
    {
      raised := RequireStatus(Success);
      if raised.Some? { return; }
      resultRef := Some(ref);
      if ms.Some? { durationMs := ms; }
    }

    method FailWith(reason: string, ms: Option<int>) returns (raised: Option<InvalidTransition>)
      modifies this
      ensures match MarkFailed(old(View()), reason, ms)
              case Ok(job) => raised == None && View() == job
              case Err(e) => raised == Some(e) && View() == old(View())
      ensures raised.None? <==> old(status) == Running
      ensures raised.None? ==> status == Failed && error == Some(reason)
                               && durationMs == if ms.Some? then ms else old(durationMs)
      ensures attempts == old(attempts) && resultRef == old(resultRef)
    {
      raised := RequireStatus(Failed);
      if raised.Some? { return; }
      error := Some(reason);
      if ms.Some? { durationMs := ms; }
    }

    method Retry() returns (raised: Option<InvalidTransition>)
      modifies this
      ensures match Requeue(old(View()))
              case Ok(job) => raised == None && View() == job
              case Err(e) => raised == Some(e) && View() == old(View())
      ensures raised.None? <==> old(status) == Running
      ensures raised.None? ==> status == Pending
      ensures attempts == old(attempts) && resultRef == old(resultRef) && error == old(error)
              && durationMs == old(durationMs)
    {
      raised := RequireStatus(Pending);
    }
  }
}
