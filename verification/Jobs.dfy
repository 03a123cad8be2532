/**
  One row of the worker_jobs table; every statement that changes a row is a function.
 */
module Jobs {
  import opened Basics
  import opened Wrappers

  type JobId = nat
  type WorkerId = nat
  type Time = int

  datatype JobStatus = Pending | Running | Succeeded | Failed | Dead

  datatype Queue = FileScanQueue | ImageQueue | SearchQueue | EmailQueue | ServerCheckQueue

  /** One row; `token` is the "token" member of the JSON payload, which only e-mail jobs carry. */
  datatype Job<+P> = Job(
    queue: Queue,
    payload: P,
    token: Option<string>,
    status: JobStatus,
    attempts: nat,
    maxAttempts: nat,
    nextRetryAt: Option<Time>,
    lockedBy: Option<WorkerId>)

  /** What Claim returns to the worker: a copy of the row's counters at claim time. */
  datatype Lease<+P> = Lease(jobId: JobId, payload: P, attempts: nat, maxAttempts: nat)

  const DEFAULT_MAX_ATTEMPTS: nat := 5

  function NewJob<P>(queue: Queue, payload: P, token: Option<string>, maxAttempts: nat): Job<P> {
    Job(queue, payload, token, Pending, 0, maxAttempts, None, None)
  }

  predicate Open<P>(job: Job<P>) {
    job.status != Succeeded
  }

  predicate Claimable<P>(job: Job<P>, queue: Queue, now: Time) {
    && job.queue == queue
    && job.status == Pending
    && (job.nextRetryAt == None || job.nextRetryAt.value <= now)
  }

  function Claimed<P>(job: Job<P>, worker: WorkerId): Job<P> {
    job.(status := Running, attempts := job.attempts + 1, lockedBy := Some(worker))
  }

  function LeaseOf<P>(id: JobId, job: Job<P>): Lease<P> {
    Lease(id, job.payload, job.attempts, job.maxAttempts)
  }

  /** payload - 'token', for the e-mail queue only. */
  function WithoutToken<P>(job: Job<P>): Job<P> {
    if job.queue == EmailQueue then job.(token := None) else job
  }

  function MarkedSucceeded<P>(job: Job<P>): Job<P> {
    WithoutToken(job).(status := Succeeded, lockedBy := None)
  }

  /** The worker decides between retry and dead from its own copy of the counters. */
  function MarkedFailed<P>(job: Job<P>, attempts: nat, maxAttempts: nat, now: Time): Job<P> {
    if attempts >= maxAttempts then
      WithoutToken(job).(status := Dead, nextRetryAt := None, lockedBy := None)
    else
      job.(status := Pending, nextRetryAt := Some(now + Backoff(attempts)), lockedBy := None)
  }

  predicate Retryable<P>(job: Job<P>) {
    job.status == Failed || job.status == Dead
  }

  function Retried<P>(job: Job<P>, now: Time): Job<P> {
    job.(status := Pending, attempts := 0, nextRetryAt := Some(now), lockedBy := None)
  }

  /** Exponential back-off in seconds: one minute, doubled per attempt, at most 32 minutes. */
  function Backoff(attempt: int): (seconds: int)
    ensures 60 <= seconds <= 32 * 60
    ensures 1 <= attempt <= 5 ==> Backoff(attempt + 1) == 2 * seconds
    ensures attempt >= 6 ==> seconds == 32 * 60
    decreases 6 - attempt
  {
    var clamped := if attempt < 1 then 1 else if attempt > 6 then 6 else attempt;
    assert Pow2(0) == 1 && Pow2(1) == 2 && Pow2(2) == 4 && Pow2(3) == 8 && Pow2(4) == 16 && Pow2(5) == 32;
    Pow2(clamped - 1) * 60
  }
}
