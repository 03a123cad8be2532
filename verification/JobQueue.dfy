/**
  The queue as a whole, as a step machine and as the repository's statements.

  SKIP LOCKED may pass over any row that another transaction has locked, so in the machine
  a claim may pick any eligible row; JobTable.Claim models the ORDER BY of one query.
 */
module JobQueue {
  import opened Wrappers
  import opened Jobs

  /**
    The table, the claims workers hold in memory, and two history variables: the claims of
    each job since it was inserted or last retried, and the jobs whose worker crashed or
    could not write its report.
   */
  datatype QueueState<+P> = QueueState(
    jobs: map<JobId, Job<P>>,
    held: map<WorkerId, Lease<P>>,
    claims: map<JobId, nat>,
    abandoned: set<JobId>)

  datatype Event<+P> =
    | Enqueue(id: JobId, queue: Queue, payload: P, token: Option<string>, maxAttempts: nat)
    | ClaimJob(worker: WorkerId, id: JobId, queue: Queue, now: Time)
    | ReportSuccess(worker: WorkerId)
    | ReportFailure(worker: WorkerId, now: Time)
    | LoseReport(worker: WorkerId)  // a crash, or a report that could not be written
    | CancelPending(id: JobId)      // softDeleteReplacedUserAvatars on a replaced avatar's job
    | AdminRetry(id: JobId, now: Time)

  predicate Enabled<P>(s: QueueState<P>, e: Event<P>) {
    match e
    case Enqueue(id, queue, _, token, maxAttempts) =>
      id !in s.jobs && maxAttempts >= 1 && (queue != EmailQueue ==> token == None)
    case ClaimJob(worker, id, queue, now) =>
      worker !in s.held && id in s.jobs && Claimable(s.jobs[id], queue, now)
    case ReportSuccess(worker) => worker in s.held && s.held[worker].jobId in s.jobs
    case ReportFailure(worker, _) => worker in s.held && s.held[worker].jobId in s.jobs
    case LoseReport(worker) => worker in s.held
    case CancelPending(id) => id in s.jobs && s.jobs[id].queue == ImageQueue && s.jobs[id].status == Pending
    case AdminRetry(id, _) => id in s.jobs && Retryable(s.jobs[id]) && id in s.claims
  }

  function Step<P>(s: QueueState<P>, e: Event<P>): QueueState<P> {
    if !Enabled(s, e) then s else
    match e
    case Enqueue(id, queue, payload, token, maxAttempts) =>
      s.(jobs := s.jobs[id := NewJob(queue, payload, token, maxAttempts)], claims := s.claims[id := 0])
    case ClaimJob(worker, id, _, _) =>
      var job := Claimed(s.jobs[id], worker);
      s.(jobs := s.jobs[id := job],
         held := s.held[worker := LeaseOf(id, job)],
         claims := s.claims[id := (if id in s.claims then s.claims[id] else 0) + 1])
    case ReportSuccess(worker) =>
      var id := s.held[worker].jobId;
      s.(jobs := s.jobs[id := MarkedSucceeded(s.jobs[id])], held := s.held - {worker})
    case ReportFailure(worker, now) =>
      var c := s.held[worker];
      s.(jobs := s.jobs[c.jobId := MarkedFailed(s.jobs[c.jobId], c.attempts, c.maxAttempts, now)],
         held := s.held - {worker})
    case LoseReport(worker) =>
      s.(held := s.held - {worker}, abandoned := s.abandoned + {s.held[worker].jobId})
    case CancelPending(id) =>
      s.(jobs := s.jobs[id := s.jobs[id].(status := Succeeded, lockedBy := None)])
    case AdminRetry(id, now) =>
      s.(jobs := s.jobs[id := Retried(s.jobs[id], now)], claims := s.claims[id := 0])
  }

  function Run<P>(s: QueueState<P>, events: seq<Event<P>>): QueueState<P>
    decreases |events|
  {
    if |events| == 0 then s else Step(Run(s, events[..|events| - 1]), events[|events| - 1])
  }

  function Empty<P>(): QueueState<P> {
    QueueState(map[], map[], map[], {})
  }

  /** The claim that worker `w` holds is the one running row it locked, counters included. */
  ghost predicate HoldsRow<P>(s: QueueState<P>, w: WorkerId)
    requires w in s.held
  {
    var c := s.held[w];
    && c.jobId in s.jobs
    && c.jobId !in s.abandoned
    && s.jobs[c.jobId].status == Running
    && s.jobs[c.jobId].lockedBy == Some(w)
    && c == LeaseOf(c.jobId, s.jobs[c.jobId])
  }

  predicate RowOk<P>(s: QueueState<P>, id: JobId)
    requires id in s.jobs
  {
    var job := s.jobs[id];
    && id in s.claims
    && s.claims[id] == job.attempts <= job.maxAttempts
    && 1 <= job.maxAttempts
    && (job.status == Pending ==> job.attempts < job.maxAttempts)
    && (job.status != Failed)
    && (job.queue != EmailQueue ==> job.token == None)
    && (job.status in {Succeeded, Dead} ==> job.token == None)
    && (job.status != Running ==> job.lockedBy == None)
    && (id in s.abandoned ==> job.status == Running)
    && (job.status == Running && id !in s.abandoned ==>
          job.lockedBy != None && job.lockedBy.value in s.held && s.held[job.lockedBy.value].jobId == id)
  }

  ghost predicate Inv<P>(s: QueueState<P>) {
    && (forall w | w in s.held :: HoldsRow(s, w))
    && (forall id | id in s.jobs :: RowOk(s, id))
    && s.abandoned <= s.jobs.Keys
  }

  lemma StepKeepsHolders<P>(s: QueueState<P>, e: Event<P>)
    requires Inv(s)
    ensures var t := Step(s, e); forall w | w in t.held :: HoldsRow(t, w)
  {
    var t := Step(s, e);
    forall w | w in t.held ensures HoldsRow(t, w) {
      if w in s.held { assert HoldsRow(s, w); }
    }
  }

  predicate IsReport<P>(e: Event<P>) {
    e.ReportSuccess? || e.ReportFailure? || e.LoseReport?
  }

  /** A report is about the reporting worker's own row. */
  lemma ReportKeepsRow<P>(s: QueueState<P>, e: Event<P>, id: JobId)
    requires Inv(s) && IsReport(e) && id in s.jobs
    ensures id in Step(s, e).jobs && RowOk(Step(s, e), id)
  {
    assert RowOk(s, id);
    if Enabled(s, e) { assert HoldsRow(s, e.worker); }
  }

  lemma OtherEventKeepsRow<P>(s: QueueState<P>, e: Event<P>, id: JobId)
    requires Inv(s) && !IsReport(e) && id in Step(s, e).jobs
    ensures RowOk(Step(s, e), id)
  {
    if id in s.jobs { assert RowOk(s, id); }
  }

  lemma StepKeepsRows<P>(s: QueueState<P>, e: Event<P>)
    requires Inv(s)
    ensures var t := Step(s, e); (forall id | id in t.jobs :: RowOk(t, id)) && t.abandoned <= t.jobs.Keys
  {
    forall id | id in Step(s, e).jobs ensures RowOk(Step(s, e), id) {
      if IsReport(e) { ReportKeepsRow(s, e, id); } else { OtherEventKeepsRow(s, e, id); }
    }
    AbandonedHaveRows(s, e);
  }

  lemma AbandonedHaveRows<P>(s: QueueState<P>, e: Event<P>)
    requires Inv(s)
    ensures Step(s, e).abandoned <= Step(s, e).jobs.Keys
  {
    if e.LoseReport? && Enabled(s, e) { assert HoldsRow(s, e.worker); }
  }

  lemma StepKeepsInv<P>(s: QueueState<P>, e: Event<P>)
    requires Inv(s)
    ensures Inv(Step(s, e))
  {
    StepKeepsHolders(s, e);
    StepKeepsRows(s, e);
  }

  lemma {:induction false} RunKeepsInv<P>(s: QueueState<P>, events: seq<Event<P>>)
    requires Inv(s)
    ensures Inv(Run(s, events))
    decreases |events|
  {
    if |events| > 0 {
      RunKeepsInv(s, events[..|events| - 1]);
      StepKeepsInv(Run(s, events[..|events| - 1]), events[|events| - 1]);
    }
  }

  /** A running row that was not abandoned has one holder, and its copy of the counters is current. */
  lemma RunningJobHasOneHolder<P>(events: seq<Event<P>>, id: JobId)
    ensures var s := Run(Empty<P>(), events);
      id in s.jobs && s.jobs[id].status == Running && id !in s.abandoned ==>
        exists w :: w in s.held && s.held[w] == LeaseOf(id, s.jobs[id])
          && forall v | v in s.held && s.held[v].jobId == id :: v == w
  {
    RunKeepsInv<P>(Empty(), events);
    var s := Run(Empty<P>(), events);
    if id in s.jobs && s.jobs[id].status == Running && id !in s.abandoned {
      assert RowOk(s, id);
      var w := s.jobs[id].lockedBy.value;
      assert HoldsRow(s, w);
      forall v | v in s.held && s.held[v].jobId == id ensures v == w { assert HoldsRow(s, v); }
    }
  }

  /** No event changes what a job is about; a job that has ended well stays ended. */
  lemma StepKeepsPayload<P>(s: QueueState<P>, e: Event<P>, id: JobId)
    requires Inv(s) && id in s.jobs
    ensures var t := Step(s, e);
      && id in t.jobs && t.jobs[id].queue == s.jobs[id].queue && t.jobs[id].payload == s.jobs[id].payload
      && t.jobs[id].maxAttempts == s.jobs[id].maxAttempts
      && (s.jobs[id].status == Succeeded ==> t.jobs[id] == s.jobs[id])
  {
    assert RowOk(s, id);
    if (e.ReportSuccess? || e.ReportFailure?) && Enabled(s, e) { assert HoldsRow(s, e.worker); }
  }

  /** A job is locked exactly while it is running. */
  lemma LockedWhileRunning<P>(events: seq<Event<P>>, id: JobId)
    ensures var s := Run(Empty<P>(), events);
      id in s.jobs && id !in s.abandoned ==> (s.jobs[id].lockedBy != None <==> s.jobs[id].status == Running)
  {
    RunKeepsInv<P>(Empty(), events);
    var s := Run(Empty<P>(), events);
    if id in s.jobs { assert RowOk(s, id); }
  }

  /**
    The retry budget: at most `maxAttempts` claims since insertion or the last admin retry; a
    job that has spent them is terminal as soon as its worker has reported; a terminal
    e-mail job no longer carries its token. The table's CHECK constraint is never violated.
   */
  lemma RetryBudget<P>(events: seq<Event<P>>, id: JobId)
    requires id in Run<P>(Empty(), events).jobs
    ensures var s := Run<P>(Empty(), events); var job := s.jobs[id];
      && id in s.claims
      && s.claims[id] == job.attempts <= job.maxAttempts
      && (job.status == Pending ==> s.claims[id] < job.maxAttempts)
      && (s.claims[id] == job.maxAttempts && job.status != Running ==> job.status in {Succeeded, Dead})
      && (job.status in {Succeeded, Dead} ==> job.token == None)
  {
    RunKeepsInv<P>(Empty(), events);
    assert RowOk(Run<P>(Empty(), events), id);
  }

  /** There is no lock expiry: once its worker is lost, a running job stays running for ever. */
  lemma {:induction false} AbandonedStaysRunning<P>(s: QueueState<P>, events: seq<Event<P>>, id: JobId)
    requires Inv(s) && id in s.abandoned
    ensures var t := Run(s, events);
      id in t.jobs && id in t.abandoned && t.jobs[id].status == Running
    decreases |events|
  {
    if |events| > 0 {
      AbandonedStaysRunning(s, events[..|events| - 1], id);
      RunKeepsInv(s, events);
      var t := Run(s, events[..|events| - 1]);
      var u := Run(s, events);
      assert u == Step(t, events[|events| - 1]);
      assert id in u.abandoned && id in u.jobs;
      assert RowOk(u, id);
    } else {
      assert RowOk(s, id);
    }
  }

  // ----- When a job can be claimed -----------------------------------------------------

  /** The worker claims the job at this time, and gets it. */
  ghost predicate ClaimedAt<P>(s: QueueState<P>, worker: WorkerId, id: JobId, at: Time)
    requires id in s.jobs
  {
    var t := Step(s, ClaimJob(worker, id, s.jobs[id].queue, at));
    worker in t.held && t.held[worker].jobId == id
  }

  /** A job that failed with attempts left waits for its back-off, and not a second longer. */
  lemma FailedJobWaits<P>(s: QueueState<P>, w: WorkerId, now: Time, idle: WorkerId, at: Time)
    requires Inv(s) && w in s.held && s.held[w].attempts < s.held[w].maxAttempts
    requires idle !in s.held || idle == w
    ensures var id := s.held[w].jobId;
      var t := Step(s, ReportFailure(w, now));
      id in t.jobs && (ClaimedAt(t, idle, id, at) <==> at >= now + Backoff(s.held[w].attempts))
  {
    assert HoldsRow(s, w);
    assert Enabled(s, ReportFailure(w, now));
  }

  /** A job out of attempts is not claimed again, at any time, before an admin retries it. */
  lemma DeadJobIsNotClaimed<P>(s: QueueState<P>, w: WorkerId, now: Time, idle: WorkerId, at: Time)
    requires Inv(s) && w in s.held && s.held[w].attempts >= s.held[w].maxAttempts
    requires idle !in s.held || idle == w
    ensures var id := s.held[w].jobId;
      var t := Step(s, ReportFailure(w, now));
      id in t.jobs && !ClaimedAt(t, idle, id, at)
  {
    assert HoldsRow(s, w);
    assert Enabled(s, ReportFailure(w, now));
  }

  /** A retried job can be claimed from the moment of the retry. */
  lemma RetriedJobIsClaimed<P>(s: QueueState<P>, id: JobId, now: Time, idle: WorkerId, at: Time)
    requires Inv(s) && id in s.jobs && idle !in s.held
    requires s.jobs[id].status == Dead || s.jobs[id].status == Failed
    ensures var t := Step(s, AdminRetry(id, now));
      id in t.jobs && (ClaimedAt(t, idle, id, at) <==> at >= now)
  {
    assert RowOk(s, id);
    assert Enabled(s, AdminRetry(id, now));
  }

  /** A new job can be claimed at any time, from its own queue only. */
  lemma NewJobIsClaimed<P>(s: QueueState<P>, id: JobId, queue: Queue, payload: P, maxAttempts: nat,
                           idle: WorkerId, other: Queue, at: Time)
    requires Inv(s) && id !in s.jobs && maxAttempts >= 1 && idle !in s.held
    ensures var t := Step(s, Enqueue(id, queue, payload, None, maxAttempts));
      id in t.jobs && t.jobs[id].queue == queue && t.jobs[id].payload == payload
      && ClaimedAt(t, idle, id, at)
      && (idle in Step(t, ClaimJob(idle, id, other, at)).held <==> other == queue)
  {
    assert Enabled(s, Enqueue(id, queue, payload, None, maxAttempts));
  }

  /** A job that is running or has ended is nobody else's to claim. */
  lemma TakenJobIsNotClaimed<P>(s: QueueState<P>, id: JobId, idle: WorkerId, at: Time)
    requires id in s.jobs && s.jobs[id].status != Pending && idle !in s.held
    ensures !ClaimedAt(s, idle, id, at)
  {
  }

  // ----- The table as the repository sees it -------------------------------------------

  /** Rows in creation order; a row's id is its position. */
  class JobTable<P> {
    var rows: seq<Job<P>>

    constructor ()
      ensures rows == []
    {
      rows := [];
    }

    /** The WHERE clause of the claim, on columns and times. */
    predicate Due(k: JobId, queue: Queue, now: Time)
      requires k < |rows|
      reads this
    {
      var row := rows[k];
      row.queue == queue && row.status == Pending && (row.nextRetryAt.Some? ==> row.nextRetryAt.value <= now)
    }

    /**
      Claim: the oldest eligible row of the queue that no other transaction has locked is
      marked running for this worker; nothing else changes.
     */
    method Claim(queue: Queue, worker: WorkerId, now: Time, locked: set<JobId>)
      returns (lease: Option<Lease<P>>)
      modifies this
      ensures lease.None? ==>
        rows == old(rows) && forall k | 0 <= k < |rows| && k !in locked :: !Due(k, queue, now)
      ensures lease.Some? ==>
        var id := lease.value.jobId;
        && id < |old(rows)| && id !in locked && old(Due(id, queue, now))
        && (forall k | 0 <= k < id && k !in locked :: !old(Due(k, queue, now)))
        && rows == old(rows)[id := Claimed(old(rows)[id], worker)]
        && lease.value == LeaseOf(id, rows[id])
    {
      var id := 0;
      while id < |rows|
        invariant 0 <= id <= |rows|
        invariant rows == old(rows)
        invariant forall k | 0 <= k < id && k !in locked :: !Due(k, queue, now)
      {
        if id !in locked && Claimable(rows[id], queue, now) {
          var row := rows[id];
          row := row.(status := Running);
          row := row.(attempts := row.attempts + 1);
          row := row.(lockedBy := Some(worker));
          rows := rows[id := row];
          return Some(Lease(id, row.payload, row.attempts, row.maxAttempts));
        }
        id := id + 1;
      }
      lease := None;
    }

    method MarkSucceeded(id: JobId) returns (found: bool)
      modifies this
      ensures found == (id < |old(rows)|)
      ensures rows == if found then old(rows)[id := MarkedSucceeded(old(rows)[id])] else old(rows)
    {
      if id >= |rows| { return false; }
      var row := rows[id];
      if row.queue == EmailQueue { row := row.(token := None); }
      rows := rows[id := row.(status := Succeeded, lockedBy := None)];
      found := true;
    }

    method MarkFailed(lease: Lease<P>, now: Time) returns (found: bool)
      modifies this
      ensures found == (lease.jobId < |old(rows)|)
      ensures rows == if found then
          old(rows)[lease.jobId := MarkedFailed(old(rows)[lease.jobId], lease.attempts, lease.maxAttempts, now)]
        else old(rows)
      ensures found ==> forall queue, at | at < now + Backoff(lease.attempts) :: !Due(lease.jobId, queue, at)
      ensures found && lease.attempts < lease.maxAttempts ==>
        forall at | at >= now + Backoff(lease.attempts) :: Due(lease.jobId, rows[lease.jobId].queue, at)
    {
      if lease.jobId >= |rows| { return false; }
      var status := Pending;
      var nextRetry := Some(now + Backoff(lease.attempts));
      if lease.attempts >= lease.maxAttempts {
        status := Dead;
        nextRetry := None;
      }
      var row := rows[lease.jobId];
      if status == Dead && row.queue == EmailQueue { row := row.(token := None); }
      rows := rows[lease.jobId := row.(status := status, nextRetryAt := nextRetry, lockedBy := None)];
      found := true;
    }

    method RetryAdminJob(id: JobId, now: Time) returns (ok: bool)
      modifies this
      ensures ok == (id < |old(rows)| && Retryable(old(rows)[id]))
      ensures rows == if ok then old(rows)[id := Retried(old(rows)[id], now)] else old(rows)
      ensures ok ==> forall at :: Due(id, rows[id].queue, at) <==> at >= now
    {
      if id >= |rows| { return false; }
      var before := rows[id];
      if before.status != Failed && before.status != Dead { return false; }
      rows := rows[id := before.(status := Pending, attempts := 0, nextRetryAt := Some(now), lockedBy := None)];
      ok := true;
    }
  }
}
