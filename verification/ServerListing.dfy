/**
  Server listings: owner edits, admin decisions and the checks that publish or unpublish a
  listing, with the queue of check jobs behind them.
 */
module ServerListing {
  import opened Wrappers
  import opened Jobs

  type ServerId = nat
  type OwnerId = nat
  type Address = nat  // host and port
  type Ciphertext = nat  // an encrypted password

  /** What a client connects to; a check probes the address alone. */
  datatype Endpoint = Endpoint(address: Address, password: Option<Ciphertext>)

  datatype Status =
    Draft | PendingVerification | PendingModeration | Published | Offline | CheckFailed | Hidden | Deleted

  datatype Visibility = Public | Unlisted

  datatype CheckStatus = CheckPending | CheckOnline | CheckOffline | CheckErrored

  datatype Listing = Listing(
    owner: OwnerId,
    endpoint: Endpoint,
    visibility: Visibility,
    status: Status,
    check: CheckStatus,
    publishedAt: Option<Time>,
    hiddenAt: Option<Time>,
    deletedAt: Option<Time>)

  datatype Tables = Tables(listings: map<ServerId, Listing>, jobs: map<JobId, Job<ServerId>>)

  const CHECK_ATTEMPTS: nat := 3

  /** The WHERE clause of ListPublished. */
  predicate Shown(l: Listing) {
    && (l.status == Published || (l.status == Offline && l.publishedAt != None))
    && l.visibility == Public
    && l.deletedAt == None
    && l.hiddenAt == None
  }

  predicate Live(job: Job<ServerId>) {
    job.status == Pending || job.status == Running
  }

  predicate LiveJobFor(jobs: map<JobId, Job<ServerId>>, j: JobId, id: ServerId) {
    j in jobs && Live(jobs[j]) && jobs[j].payload == id
  }

  predicate HasLiveJob(jobs: map<JobId, Job<ServerId>>, id: ServerId) {
    exists j | j in jobs :: LiveJobFor(jobs, j, id)
  }

  // ----- The transactions --------------------------------------------------------------

  /** enqueueServerCheckTx: at most one pending or running check per server. */
  function EnqueueCheck(t: Tables, id: ServerId, jobId: JobId): Tables
    requires jobId !in t.jobs
  {
    if HasLiveJob(t.jobs, id) then t
    else t.(jobs := t.jobs[jobId := NewJob(ServerCheckQueue, id, None, CHECK_ATTEMPTS)])
  }

  function Create(t: Tables, id: ServerId, owner: OwnerId, endpoint: Endpoint, visibility: Visibility, jobId: JobId)
    : Option<Tables>
  {
    if id in t.listings || jobId in t.jobs then None
    else
      var listing := Listing(owner, endpoint, visibility, PendingVerification, CheckPending, None, None, None);
      Some(EnqueueCheck(t.(listings := t.listings[id := listing]), id, jobId))
  }

  predicate Owned(t: Tables, owner: OwnerId, id: ServerId) {
    id in t.listings && t.listings[id].owner == owner && t.listings[id].deletedAt == None
  }

  /** UpdateOwned: a changed endpoint sends the listing back to verification. */
  function Update(t: Tables, owner: OwnerId, id: ServerId, endpoint: Endpoint, visibility: Visibility, jobId: JobId)
    : Option<Tables>
  {
    if !Owned(t, owner, id) || jobId in t.jobs then None
    else
      var before := t.listings[id];
      var saved := before.(endpoint := endpoint, visibility := visibility);
      if endpoint == before.endpoint then Some(t.(listings := t.listings[id := saved]))
      else
        var reset := saved.(status := PendingVerification, check := CheckPending);
        Some(EnqueueCheck(t.(listings := t.listings[id := reset]), id, jobId))
  }

  function RequestVerification(t: Tables, owner: OwnerId, id: ServerId, jobId: JobId): Option<Tables> {
    if !Owned(t, owner, id) || jobId in t.jobs then None
    else
      var reset := t.listings[id].(status := PendingVerification, check := CheckPending);
      Some(EnqueueCheck(t.(listings := t.listings[id := reset]), id, jobId))
  }

  function Delete(t: Tables, owner: OwnerId, id: ServerId, now: Time): Option<Tables> {
    if !Owned(t, owner, id) then None
    else Some(t.(listings := t.listings[id := t.listings[id].(status := Deleted, deletedAt := Some(now))]))
  }

  /** One candidate of EnqueueDueChecks; which listings are due is up to the clock. */
  function EnqueueDue(t: Tables, id: ServerId, jobId: JobId): Option<Tables> {
    if id !in t.listings || t.listings[id].deletedAt != None || jobId in t.jobs
       || t.listings[id].status !in {PendingVerification, Published, Offline, CheckFailed}
       || HasLiveJob(t.jobs, id) then None
    else Some(EnqueueCheck(t, id, jobId))
  }

  predicate Checkable(t: Tables, id: ServerId) {
    id in t.listings && t.listings[id].deletedAt == None && t.listings[id].status != Hidden
  }

  function StatusAfter(status: Status, result: CheckStatus): Status {
    match result
    case CheckOnline => if status in {PendingVerification, Offline, CheckFailed} then Published else status
    case CheckOffline => if status in {PendingVerification, Published} then Offline else status
    case CheckErrored => if status in {PendingVerification, Published, Offline} then CheckFailed else status
    case CheckPending => status
  }

  /** CompleteCheck updates the row if it is still there and not hidden; it does not compare endpoints. */
  function CompleteCheck(t: Tables, id: ServerId, result: CheckStatus, at: Time): Tables {
    if !Checkable(t, id) then t
    else
      var l := t.listings[id];
      var publishedAt := if result == CheckOnline && l.publishedAt == None then Some(at) else l.publishedAt;
      t.(listings := t.listings[id :=
        l.(check := result, status := StatusAfter(l.status, result), publishedAt := publishedAt)])
  }

  /** setAdminStatus with 'hidden' or 'published'. */
  function SetAdminStatus(t: Tables, id: ServerId, hiding: bool, now: Time): Option<Tables> {
    if id !in t.listings then None
    else if t.listings[id].deletedAt != None then Some(t)
    else
      var hiddenAt := if hiding then Some(now) else None;
      var status := if hiding then Hidden else Published;
      Some(t.(listings := t.listings[id := t.listings[id].(status := status, hiddenAt := hiddenAt)]))
  }

  // ----- The machine -------------------------------------------------------------------

  /** A worker on a check: claimed, target loaded, about to mark the job done, or about to mark it failed. */
  datatype Check =
    | Leased(lease: Lease<ServerId>)
    | Probing(lease: Lease<ServerId>, target: Address)
    | Marking(lease: Lease<ServerId>)
    | Reporting(lease: Lease<ServerId>)

  /** History: the addresses that a recorded check found online, and those an admin restored, each with its listing. */
  datatype State = State(
    t: Tables,
    checks: map<WorkerId, Check>,
    probed: set<(ServerId, Address)>,
    restored: set<(ServerId, Address)>)

  datatype Action =
    | CreateListing(id: ServerId, owner: OwnerId, endpoint: Endpoint, visibility: Visibility, jobId: JobId)
    | UpdateListing(owner: OwnerId, id: ServerId, endpoint: Endpoint, visibility: Visibility, jobId: JobId)
    | RequestCheck(owner: OwnerId, id: ServerId, jobId: JobId)
    | DeleteListing(owner: OwnerId, id: ServerId, now: Time)
    | Schedule(id: ServerId, jobId: JobId)
    | Claim(w: WorkerId, jobId: JobId, now: Time)
    | LoadTarget(w: WorkerId, ok: bool)
    | FinishProbe(w: WorkerId, online: bool, at: Time, commit: bool)
    | MarkDone(w: WorkerId, commit: bool)
    | Report(w: WorkerId, now: Time, commit: bool)
    | Crash(w: WorkerId)
    | HideListing(id: ServerId, now: Time)
    | RestoreListing(id: ServerId, now: Time)
    | RetryJob(jobId: JobId, now: Time)

  function Saved(s: State, tx: Option<Tables>): State {
    s.(t := tx.GetOr(s.t))
  }

  predicate IsWorkerStep(a: Action) {
    a.Claim? || a.LoadTarget? || a.FinishProbe? || a.MarkDone? || a.Report? || a.Crash?
  }

  function WorkerStep(s: State, a: Action): State
    requires IsWorkerStep(a)
  {
    match a
    case Claim(w, jobId, now) =>
      if w in s.checks || jobId !in s.t.jobs || !Claimable(s.t.jobs[jobId], ServerCheckQueue, now) then s else
        var job := Claimed(s.t.jobs[jobId], w);
        s.(t := s.t.(jobs := s.t.jobs[jobId := job]), checks := s.checks[w := Leased(LeaseOf(jobId, job))])
    case LoadTarget(w, ok) =>
      if w !in s.checks || !s.checks[w].Leased? then s else
        var lease := s.checks[w].lease;
        if !ok then s.(checks := s.checks[w := Reporting(lease)])
        else if !Checkable(s.t, lease.payload) then s.(checks := s.checks[w := Marking(lease)])
        else s.(checks := s.checks[w := Probing(lease, s.t.listings[lease.payload].endpoint.address)])
    case FinishProbe(w, online, at, commit) =>
      if w !in s.checks || !s.checks[w].Probing? then s else
        var lease := s.checks[w].lease;
        if !commit then s.(checks := s.checks[w := Reporting(lease)])
        else State(CompleteCheck(s.t, lease.payload, if online then CheckOnline else CheckOffline, at),
                   s.checks[w := Marking(lease)],
                   if online then s.probed + {(lease.payload, s.checks[w].target)} else s.probed,
                   s.restored)
    case MarkDone(w, commit) =>
      if w !in s.checks || !s.checks[w].Marking? then s else
        var lease := s.checks[w].lease;
        if commit && lease.jobId in s.t.jobs then
          var job := MarkedSucceeded(s.t.jobs[lease.jobId]);
          s.(t := s.t.(jobs := s.t.jobs[lease.jobId := job]), checks := s.checks - {w})
        else s.(checks := s.checks[w := Reporting(lease)])
    case Report(w, now, commit) =>
      if w !in s.checks || !s.checks[w].Reporting? then s else
        var lease := s.checks[w].lease;
        if commit && lease.jobId in s.t.jobs then
          var job := MarkedFailed(s.t.jobs[lease.jobId], lease.attempts, lease.maxAttempts, now);
          s.(t := s.t.(jobs := s.t.jobs[lease.jobId := job]), checks := s.checks - {w})
        else s.(checks := s.checks - {w})
    case Crash(w) => s.(checks := s.checks - {w})
  }

  function Step(s: State, a: Action): State {
    match a
    case CreateListing(id, owner, endpoint, visibility, jobId) =>
      Saved(s, Create(s.t, id, owner, endpoint, visibility, jobId))
    case UpdateListing(owner, id, endpoint, visibility, jobId) =>
      Saved(s, Update(s.t, owner, id, endpoint, visibility, jobId))
    case RequestCheck(owner, id, jobId) => Saved(s, RequestVerification(s.t, owner, id, jobId))
    case DeleteListing(owner, id, now) => Saved(s, Delete(s.t, owner, id, now))
    case Schedule(id, jobId) => Saved(s, EnqueueDue(s.t, id, jobId))
    case HideListing(id, now) => Saved(s, SetAdminStatus(s.t, id, true, now))
    case RestoreListing(id, now) =>
      if id !in s.t.listings then s
      else Saved(s, SetAdminStatus(s.t, id, false, now)).(
        restored := s.restored + {(id, s.t.listings[id].endpoint.address)})
    case RetryJob(jobId, now) =>
      if jobId !in s.t.jobs || !Retryable(s.t.jobs[jobId]) then s
      else s.(t := s.t.(jobs := s.t.jobs[jobId := Retried(s.t.jobs[jobId], now)]))
    case _ => WorkerStep(s, a)
  }

  function Run(s: State, actions: seq<Action>): State
    decreases |actions|
  {
    if |actions| == 0 then s else Step(Run(s, actions[..|actions| - 1]), actions[|actions| - 1])
  }

  const START: State := State(Tables(map[], map[]), map[], {}, {})

  // ----- Who may be shown --------------------------------------------------------------

  /** Some address of the listing is among the pairs. */
  predicate Mentions(pairs: set<(ServerId, Address)>, id: ServerId) {
    exists p | p in pairs :: p.0 == id
  }

  /** Publication has a cause: a recorded successful probe, or an admin who restored the listing. */
  predicate Earned(s: State, id: ServerId)
    requires id in s.t.listings
  {
    var l := s.t.listings[id];
    && (l.publishedAt != None ==> Mentions(s.probed, id))
    && (l.status == Published ==> Mentions(s.probed, id) || Mentions(s.restored, id))
    && (l.status == Published && !Mentions(s.restored, id) ==> l.publishedAt != None)
    && (l.deletedAt != None <==> l.status == Deleted)
    && (l.hiddenAt == None ==> l.status != Hidden)
  }

  ghost predicate AllEarned(s: State) {
    forall id | id in s.t.listings :: Earned(s, id)
  }

  lemma HistoryGrows(s: State, a: Action)
    ensures s.probed <= Step(s, a).probed && s.restored <= Step(s, a).restored
    ensures forall id :: Mentions(s.probed, id) ==> Mentions(Step(s, a).probed, id)
    ensures forall id :: Mentions(s.restored, id) ==> Mentions(Step(s, a).restored, id)
  {
  }

  lemma FinishProbeKeepsEarned(s: State, a: Action, id: ServerId)
    requires AllEarned(s) && a.FinishProbe? && id in s.t.listings
    ensures id in Step(s, a).t.listings && Earned(Step(s, a), id)
  {
    HistoryGrows(s, a);
    assert Earned(s, id);
    if a.w in s.checks && s.checks[a.w].Probing? && a.online && a.commit {
      assert (s.checks[a.w].lease.payload, s.checks[a.w].target) in Step(s, a).probed;
    }
  }

  lemma RestoreKeepsEarned(s: State, a: Action, id: ServerId)
    requires AllEarned(s) && a.RestoreListing? && id in s.t.listings
    ensures id in Step(s, a).t.listings && Earned(Step(s, a), id)
  {
    HistoryGrows(s, a);
    assert Earned(s, id);
    if a.id in s.t.listings { assert (a.id, s.t.listings[a.id].endpoint.address) in Step(s, a).restored; }
  }

  /** A worker's other steps touch no listing and no history. */
  lemma WorkerStepKeepsEarned(s: State, a: Action)
    requires AllEarned(s) && IsWorkerStep(a) && !a.FinishProbe?
    ensures AllEarned(Step(s, a))
  {
    var t := Step(s, a);
    assert t.t.listings == s.t.listings && t.probed == s.probed && t.restored == s.restored;
    forall id | id in t.t.listings ensures Earned(t, id) { assert Earned(s, id); }
  }

  /** Owners, the scheduler and the other decisions of admins leave the history alone. */
  lemma OtherStepKeepsEarned(s: State, a: Action, id: ServerId)
    requires AllEarned(s) && !IsWorkerStep(a) && !a.RestoreListing? && id in Step(s, a).t.listings
    ensures Earned(Step(s, a), id)
  {
    assert Step(s, a).probed == s.probed && Step(s, a).restored == s.restored;
    if id in s.t.listings { assert Earned(s, id); }
  }

  lemma StepKeepsEarned(s: State, a: Action)
    requires AllEarned(s)
    ensures AllEarned(Step(s, a))
  {
    if IsWorkerStep(a) && !a.FinishProbe? { WorkerStepKeepsEarned(s, a); return; }
    forall id | id in Step(s, a).t.listings ensures Earned(Step(s, a), id) {
      if a.FinishProbe? { FinishProbeKeepsEarned(s, a, id); }
      else if a.RestoreListing? { RestoreKeepsEarned(s, a, id); }
      else { OtherStepKeepsEarned(s, a, id); }
    }
  }

  lemma {:induction false} RunKeepsEarned(s: State, actions: seq<Action>)
    requires AllEarned(s)
    ensures AllEarned(Run(s, actions))
    decreases |actions|
  {
    if |actions| > 0 {
      RunKeepsEarned(s, actions[..|actions| - 1]);
      StepKeepsEarned(Run(s, actions[..|actions| - 1]), actions[|actions| - 1]);
    }
  }

  /** A listing on the public page has answered a probe at some address, or was restored by an admin. */
  lemma ShownIsEarned(actions: seq<Action>, id: ServerId)
    ensures var s := Run(START, actions);
      id in s.t.listings && Shown(s.t.listings[id]) ==>
        && (Mentions(s.probed, id) || Mentions(s.restored, id))
        && (!Mentions(s.restored, id) ==> s.t.listings[id].publishedAt != None)
  {
    RunKeepsEarned(START, actions);
    var s := Run(START, actions);
    if id in s.t.listings { assert Earned(s, id); }
  }

  lemma StepKeepsMarks(s: State, a: Action, id: ServerId)
    requires id in s.t.listings
    ensures id in Step(s, a).t.listings
    ensures s.t.listings[id].deletedAt != None ==>
      Step(s, a).t.listings[id].deletedAt == s.t.listings[id].deletedAt
    ensures s.t.listings[id].hiddenAt != None && !(a.RestoreListing? && a.id == id) ==>
      Step(s, a).t.listings[id].hiddenAt != None
  {
  }

  /** Nothing shows a deleted listing again. */
  lemma {:induction false} DeletedNeverReturns(s: State, actions: seq<Action>, id: ServerId)
    requires id in s.t.listings && s.t.listings[id].deletedAt != None
    ensures var end := Run(s, actions);
      id in end.t.listings && end.t.listings[id].deletedAt == s.t.listings[id].deletedAt && !Shown(end.t.listings[id])
    decreases |actions|
  {
    if |actions| > 0 {
      var n := |actions| - 1;
      DeletedNeverReturns(s, actions[..n], id);
      StepKeepsMarks(Run(s, actions[..n]), actions[n], id);
    }
  }

  predicate NoRestoreOf(actions: seq<Action>, id: ServerId) {
    forall i | 0 <= i < |actions| :: !(actions[i].RestoreListing? && actions[i].id == id)
  }

  /** No one but an admin's restore shows a hidden listing again. */
  lemma {:induction false} HiddenUntilRestored(s: State, actions: seq<Action>, id: ServerId)
    requires id in s.t.listings && s.t.listings[id].hiddenAt != None
    requires NoRestoreOf(actions, id)
    ensures var end := Run(s, actions);
      id in end.t.listings && end.t.listings[id].hiddenAt != None && !Shown(end.t.listings[id])
    decreases |actions|
  {
    if |actions| > 0 {
      var n := |actions| - 1;
      assert NoRestoreOf(actions[..n], id);
      HiddenUntilRestored(s, actions[..n], id);
      StepKeepsMarks(Run(s, actions[..n]), actions[n], id);
    }
  }

  // ----- Which address is shown --------------------------------------------------------

  /** The listing's present address has answered a recorded check, or an admin restored the listing with it. */
  predicate Backed(s: State, id: ServerId)
    requires id in s.t.listings
  {
    (id, s.t.listings[id].endpoint.address) in s.probed + s.restored
  }

  /** As far as its status goes, the public may see the listing: published, or offline after a publication. */
  predicate Exposed(l: Listing) {
    l.status == Published || (l.status == Offline && l.publishedAt != None)
  }

  ghost predicate ExposedIsBacked(s: State) {
    forall id | id in s.t.listings && Exposed(s.t.listings[id]) :: Backed(s, id)
  }

  predicate Commits(s: State, a: Action) {
    && a.FinishProbe? && a.commit && a.w in s.checks && s.checks[a.w].Probing?
    && Checkable(s.t, s.checks[a.w].lease.payload)
  }

  /**
    The commit of a check on a listing that is not backed, when it exposes the listing: an
    online result that publishes it although another address was probed, or an offline
    result for a listing that was published before it moved.
   */
  predicate ExposesUnbacked(s: State, a: Action) {
    Commits(s, a) &&
      var id := s.checks[a.w].lease.payload;
      var l := s.t.listings[id];
      && !Backed(s, id)
      && if a.online
         then l.status in {PendingVerification, Offline, CheckFailed} && s.checks[a.w].target != l.endpoint.address
         else l.status == PendingVerification && l.publishedAt != None
  }

  /** Steps other than a check's commit expose a listing only by an admin's restore. */
  lemma OtherStepBacked(s: State, a: Action)
    requires ExposedIsBacked(s) && !Commits(s, a)
    ensures ExposedIsBacked(Step(s, a))
  {
    var t := Step(s, a);
    HistoryGrows(s, a);
    forall id | id in t.t.listings && Exposed(t.t.listings[id]) ensures Backed(t, id) {
      if id in s.t.listings && Exposed(s.t.listings[id]) { assert Backed(s, id); }
    }
  }

  lemma CommitBackedIff(s: State, a: Action)
    requires ExposedIsBacked(s) && Commits(s, a)
    ensures ExposedIsBacked(Step(s, a)) <==> !ExposesUnbacked(s, a)
  {
    var t := Step(s, a);
    var id := s.checks[a.w].lease.payload;
    HistoryGrows(s, a);
    assert t.t.listings == s.t.listings[id := t.t.listings[id]];
    if Exposed(s.t.listings[id]) { assert Backed(s, id); }
    assert Backed(t, id) <==> Backed(s, id) || (a.online && s.checks[a.w].target == s.t.listings[id].endpoint.address);
    if ExposesUnbacked(s, a) {
      assert Exposed(t.t.listings[id]) && !Backed(t, id);
    } else {
      forall i | i in t.t.listings && Exposed(t.t.listings[i]) ensures Backed(t, i) {
        if i != id { assert Backed(s, i); }
      }
    }
  }

  /** One step keeps every exposed address backed if and only if it is not such a commit. */
  lemma StepBackedIff(s: State, a: Action)
    requires ExposedIsBacked(s)
    ensures ExposedIsBacked(Step(s, a)) <==> !ExposesUnbacked(s, a)
  {
    if Commits(s, a) { CommitBackedIff(s, a); } else { OtherStepBacked(s, a); }
  }

  ghost predicate AlwaysBacked(actions: seq<Action>) {
    forall n | 0 <= n <= |actions| :: ExposedIsBacked(Run(START, actions[..n]))
  }

  ghost predicate NeverExposesUnbacked(actions: seq<Action>) {
    forall n | 0 <= n < |actions| :: !ExposesUnbacked(Run(START, actions[..n]), actions[n])
  }

  lemma RunStep(actions: seq<Action>, n: nat)
    requires n < |actions|
    ensures Run(START, actions[..n + 1]) == Step(Run(START, actions[..n]), actions[n])
  {
    assert actions[..n + 1][..n] == actions[..n];
  }

  lemma {:induction false} BackedUpTo(actions: seq<Action>, n: nat)
    requires n <= |actions| && NeverExposesUnbacked(actions)
    ensures ExposedIsBacked(Run(START, actions[..n]))
  {
    if n > 0 {
      BackedUpTo(actions, n - 1);
      RunStep(actions, n - 1);
      StepBackedIff(Run(START, actions[..n - 1]), actions[n - 1]);
    }
  }

  /**
    Throughout a run, every exposed listing's address has answered a check or was restored
    by an admin, if and only if no check of the run commits while it exposes an unbacked one.
   */
  lemma AlwaysBackedIff(actions: seq<Action>)
    ensures AlwaysBacked(actions) <==> NeverExposesUnbacked(actions)
  {
    if NeverExposesUnbacked(actions) {
      forall n | 0 <= n <= |actions| ensures ExposedIsBacked(Run(START, actions[..n])) { BackedUpTo(actions, n); }
    }
    if AlwaysBacked(actions) {
      forall n | 0 <= n < |actions| ensures !ExposesUnbacked(Run(START, actions[..n]), actions[n]) {
        RunStep(actions, n);
        StepBackedIff(Run(START, actions[..n]), actions[n]);
      }
    }
  }

  /** The owner moves a listing to another address while a worker is probing it. */
  predicate MovesWhileProbing(s: State, a: Action) {
    && a.UpdateListing? && Owned(s.t, a.owner, a.id) && a.endpoint.address != s.t.listings[a.id].endpoint.address
    && exists w | w in s.checks :: s.checks[w].Probing? && s.checks[w].lease.payload == a.id
  }

  predicate NeverMovesWhileProbing(actions: seq<Action>)
    decreases |actions|
  {
    |actions| > 0 ==>
      && NeverMovesWhileProbing(actions[..|actions| - 1])
      && !MovesWhileProbing(Run(START, actions[..|actions| - 1]), actions[|actions| - 1])
  }

  /** Every probe under way is at the present address of its listing. */
  predicate TargetsCurrent(s: State) {
    forall w | w in s.checks && s.checks[w].Probing? ::
      var id := s.checks[w].lease.payload;
      id in s.t.listings && s.checks[w].target == s.t.listings[id].endpoint.address
  }

  ghost predicate PublishedIsBacked(s: State) {
    forall id | id in s.t.listings && s.t.listings[id].status == Published :: Backed(s, id)
  }

  ghost predicate ProbesCurrent(s: State) {
    TargetsCurrent(s) && PublishedIsBacked(s)
  }

  lemma StepKeepsTargets(s: State, a: Action)
    requires TargetsCurrent(s) && !MovesWhileProbing(s, a)
    ensures TargetsCurrent(Step(s, a))
  {
  }

  /** An online result publishes the address that was probed; no other result publishes. */
  lemma CommitKeepsPublishedBacked(s: State, a: Action)
    requires ProbesCurrent(s) && Commits(s, a)
    ensures PublishedIsBacked(Step(s, a))
  {
    var t, checked := Step(s, a), s.checks[a.w].lease.payload;
    HistoryGrows(s, a);
    assert t.t.listings == s.t.listings[checked := t.t.listings[checked]];
    forall id | id in t.t.listings && t.t.listings[id].status == Published ensures Backed(t, id) {
      if s.t.listings[id].status == Published { assert Backed(s, id); }
    }
  }

  lemma OtherStepKeepsPublishedBacked(s: State, a: Action)
    requires PublishedIsBacked(s) && !Commits(s, a)
    ensures PublishedIsBacked(Step(s, a))
  {
    var t := Step(s, a);
    HistoryGrows(s, a);
    forall id | id in t.t.listings && t.t.listings[id].status == Published ensures Backed(t, id) {
      if id in s.t.listings && s.t.listings[id].status == Published { assert Backed(s, id); }
    }
  }

  lemma StepKeepsProbesCurrent(s: State, a: Action)
    requires ProbesCurrent(s) && !MovesWhileProbing(s, a)
    ensures ProbesCurrent(Step(s, a))
  {
    StepKeepsTargets(s, a);
    if Commits(s, a) { CommitKeepsPublishedBacked(s, a); } else { OtherStepKeepsPublishedBacked(s, a); }
  }

  lemma {:induction false} RunKeepsProbesCurrent(actions: seq<Action>)
    requires NeverMovesWhileProbing(actions)
    ensures ProbesCurrent(Run(START, actions))
    decreases |actions|
  {
    if |actions| > 0 {
      RunKeepsProbesCurrent(actions[..|actions| - 1]);
      StepKeepsProbesCurrent(Run(START, actions[..|actions| - 1]), actions[|actions| - 1]);
    }
  }

  /** If no owner moves a listing while it is being probed, every published address has answered or was restored. */
  lemma {:induction false} PublishedIsProbed(actions: seq<Action>, id: ServerId)
    requires NeverMovesWhileProbing(actions)
    ensures var s := Run(START, actions);
      id in s.t.listings && s.t.listings[id].status == Published ==> Backed(s, id)
  {
    RunKeepsProbesCurrent(actions);
  }

  /** What the public page shows, offline listings included, is backed unless some check exposed it unbacked. */
  lemma {:induction false} ShownIsBacked(actions: seq<Action>, id: ServerId)
    requires NeverExposesUnbacked(actions)
    ensures var s := Run(START, actions);
      id in s.t.listings && Shown(s.t.listings[id]) ==> Backed(s, id)
  {
    AlwaysBackedIff(actions);
    assert actions[..|actions|] == actions;
  }

  /** An online commit leaves the listing's address among the probed ones iff it was probed, now or before. */
  lemma OnlineCommitProbedIff(s: State, a: Action)
    requires Commits(s, a) && a.online
    ensures var id := s.checks[a.w].lease.payload; var e := s.t.listings[id].endpoint.address;
      && Step(s, a).t.listings[id].endpoint.address == e
      && ((id, e) in Step(s, a).probed <==> s.checks[a.w].target == e || (id, e) in s.probed)
  {
  }

  // ----- What each transaction does to a listing ---------------------------------------

  /** A check that was recorded decides the status from the status the listing then has. */
  lemma CheckDecides(t: Tables, id: ServerId, result: CheckStatus, at: Time)
    requires id in t.listings && result != CheckPending
    ensures var was, l := t.listings[id], CompleteCheck(t, id, result, at).listings[id];
      if was.deletedAt != None || was.status == Hidden then l == was
      else
        && l.owner == was.owner && l.endpoint == was.endpoint && l.visibility == was.visibility
        && l.deletedAt == was.deletedAt && l.hiddenAt == was.hiddenAt && l.check == result
        && (l.publishedAt == if result == CheckOnline && was.publishedAt == None then Some(at) else was.publishedAt)
        && (result == CheckOnline ==>
              l.status == if was.status in {PendingVerification, Offline, CheckFailed} then Published else was.status)
        && (result == CheckOffline ==>
              l.status == if was.status in {PendingVerification, Published} then Offline else was.status)
        && (result == CheckErrored ==>
              l.status == if was.status in {PendingVerification, Published, Offline} then CheckFailed else was.status)
  {
  }

  /** After a check found it online, a listing is on the page, if it is public and not hidden. */
  lemma OnlineIsShown(t: Tables, id: ServerId, at: Time)
    requires id in t.listings && t.listings[id].visibility == Public
    requires t.listings[id].status in {PendingVerification, Offline, CheckFailed, Published}
    requires t.listings[id].deletedAt == None && t.listings[id].hiddenAt == None
    ensures Shown(CompleteCheck(t, id, CheckOnline, at).listings[id])
  {
  }

  lemma DueOne(jobs: map<JobId, Job<ServerId>>, id: ServerId, jobId: JobId)
    requires jobId !in jobs
    ensures var after := EnqueueCheck(Tables(map[], jobs), id, jobId).jobs;
      && HasLiveJob(after, id) && (after == jobs <==> HasLiveJob(jobs, id))
      && (after != jobs ==>
            && after == jobs[jobId := after[jobId]]
            && after[jobId].queue == ServerCheckQueue && after[jobId].payload == id && after[jobId].status == Pending
            && after[jobId].attempts == 0 && after[jobId].maxAttempts == 3 && after[jobId].nextRetryAt == None)
  {
    var after := EnqueueCheck(Tables(map[], jobs), id, jobId).jobs;
    if !HasLiveJob(jobs, id) { assert LiveJobFor(after, jobId, id); }
  }

  lemma SameJobs(t: Tables, id: ServerId, jobId: JobId)
    requires jobId !in t.jobs
    ensures EnqueueCheck(t, id, jobId).jobs == EnqueueCheck(Tables(map[], t.jobs), id, jobId).jobs
    ensures EnqueueCheck(t, id, jobId).listings == t.listings
  {
  }

  /** A new listing waits for its first check, which is queued. */
  lemma CreateDecides(t: Tables, id: ServerId, owner: OwnerId, endpoint: Endpoint, visibility: Visibility, jobId: JobId)
    requires id !in t.listings && jobId !in t.jobs
    ensures var after := Create(t, id, owner, endpoint, visibility, jobId);
      && after.Some? && id in after.value.listings && HasLiveJob(after.value.jobs, id)
      && var l := after.value.listings[id];
      && l.owner == owner && l.endpoint == endpoint && l.visibility == visibility
      && l.status == PendingVerification && l.publishedAt == None && l.hiddenAt == None && l.deletedAt == None
      && !Shown(l)
  {
    var listing := Listing(owner, endpoint, visibility, PendingVerification, CheckPending, None, None, None);
    DueOne(t.jobs, id, jobId);
    SameJobs(t.(listings := t.listings[id := listing]), id, jobId);
  }

  /** An edit by the owner: any change of the endpoint takes the listing off the page and has a check due. */
  lemma UpdateDecides(t: Tables, owner: OwnerId, id: ServerId, endpoint: Endpoint, visibility: Visibility, jobId: JobId)
    requires jobId !in t.jobs
    ensures var after := Update(t, owner, id, endpoint, visibility, jobId);
      && (after.Some? <==> id in t.listings && t.listings[id].owner == owner && t.listings[id].deletedAt == None)
      && (after.Some? ==>
            && id in after.value.listings
            && var was, l := t.listings[id], after.value.listings[id];
            && after.value.listings == t.listings[id := l]
            && l.endpoint == endpoint && l.visibility == visibility && l.owner == owner
            && l.publishedAt == was.publishedAt && l.hiddenAt == was.hiddenAt && l.deletedAt == None
            && (if endpoint == was.endpoint then l.status == was.status && after.value.jobs == t.jobs
                else l.status == PendingVerification && !Shown(l) && HasLiveJob(after.value.jobs, id)))
  {
    if Owned(t, owner, id) {
      var reset := t.listings[id].(endpoint := endpoint, visibility := visibility,
                                   status := PendingVerification, check := CheckPending);
      DueOne(t.jobs, id, jobId);
      SameJobs(t.(listings := t.listings[id := reset]), id, jobId);
    }
  }

  /** A verification the owner asks for does the same and changes nothing else. */
  lemma RequestDecides(t: Tables, owner: OwnerId, id: ServerId, jobId: JobId)
    requires jobId !in t.jobs
    ensures var after := RequestVerification(t, owner, id, jobId);
      && (after.Some? <==> id in t.listings && t.listings[id].owner == owner && t.listings[id].deletedAt == None)
      && (after.Some? ==>
            && after.value.listings ==
                 t.listings[id := t.listings[id].(status := PendingVerification, check := CheckPending)]
            && HasLiveJob(after.value.jobs, id))
  {
    if Owned(t, owner, id) {
      var reset := t.listings[id].(status := PendingVerification, check := CheckPending);
      DueOne(t.jobs, id, jobId);
      SameJobs(t.(listings := t.listings[id := reset]), id, jobId);
    }
  }

  /** Only the owner deletes, and a deleted listing is gone from the page. */
  lemma DeleteDecides(t: Tables, owner: OwnerId, id: ServerId, now: Time)
    ensures var after := Delete(t, owner, id, now);
      && (after.Some? <==> id in t.listings && t.listings[id].owner == owner && t.listings[id].deletedAt == None)
      && (after.Some? ==>
            && after.value.jobs == t.jobs && id in after.value.listings
            && after.value.listings == t.listings[id := after.value.listings[id]]
            && after.value.listings[id].deletedAt == Some(now) && !Shown(after.value.listings[id]))
  {
  }

  /** Hiding takes a listing off the page; restoring puts a public one back, and clears the mark. */
  lemma AdminDecides(t: Tables, id: ServerId, hiding: bool, now: Time)
    requires id in t.listings && t.listings[id].deletedAt == None
    ensures var after := SetAdminStatus(t, id, hiding, now);
      && after.Some? && after.value.jobs == t.jobs && id in after.value.listings
      && after.value.listings == t.listings[id := after.value.listings[id]]
      && var was, l := t.listings[id], after.value.listings[id];
      && l.endpoint == was.endpoint && l.publishedAt == was.publishedAt && l.deletedAt == None
      && (if hiding then l.hiddenAt == Some(now) && !Shown(l)
          else l.hiddenAt == None && (Shown(l) <==> was.visibility == Public))
  {
  }

  /** The scheduler checks what is waiting, listed, offline or failed, and has no check due. */
  lemma ScheduleDecides(t: Tables, id: ServerId, jobId: JobId)
    requires jobId !in t.jobs
    ensures EnqueueDue(t, id, jobId).Some? <==>
      && id in t.listings && t.listings[id].deletedAt == None
      && t.listings[id].status in {PendingVerification, Published, Offline, CheckFailed}
      && !HasLiveJob(t.jobs, id)
    ensures EnqueueDue(t, id, jobId).Some? ==>
      HasLiveJob(EnqueueDue(t, id, jobId).value.jobs, id) && EnqueueDue(t, id, jobId).value.listings == t.listings
  {
    DueOne(t.jobs, id, jobId);
    SameJobs(t, id, jobId);
  }

  // ----- One check at a time -----------------------------------------------------------

  predicate HoldsJob(s: State, w: WorkerId)
    requires w in s.checks
  {
    var lease := s.checks[w].lease;
    && lease.jobId in s.t.jobs
    && s.t.jobs[lease.jobId].status == Running
    && s.t.jobs[lease.jobId].lockedBy == Some(w)
    && s.t.jobs[lease.jobId].payload == lease.payload
  }

  ghost predicate OneLiveJob(jobs: map<JobId, Job<ServerId>>) {
    forall i, j, id | LiveJobFor(jobs, i, id) && LiveJobFor(jobs, j, id) :: i == j
  }

  ghost predicate QueueOk(s: State) {
    OneLiveJob(s.t.jobs) && forall w | w in s.checks :: HoldsJob(s, w)
  }

  lemma EnqueueKeepsOne(t: Tables, id: ServerId, jobId: JobId)
    requires OneLiveJob(t.jobs) && jobId !in t.jobs
    ensures OneLiveJob(EnqueueCheck(t, id, jobId).jobs)
  {
    if !HasLiveJob(t.jobs, id) {
      var jobs := EnqueueCheck(t, id, jobId).jobs;
      forall i, j, k | LiveJobFor(jobs, i, k) && LiveJobFor(jobs, j, k) ensures i == j {
        if i != jobId { assert LiveJobFor(t.jobs, i, k); }
        if j != jobId { assert LiveJobFor(t.jobs, j, k); }
      }
    }
  }

  /** Changing a live job cannot add a second one for its server. */
  lemma ChangedJobKeepsOne(jobs: map<JobId, Job<ServerId>>, j: JobId, job: Job<ServerId>)
    requires OneLiveJob(jobs) && j in jobs && Live(jobs[j]) && job.payload == jobs[j].payload
    ensures OneLiveJob(jobs[j := job])
  {
    var after := jobs[j := job];
    forall i, k, id | LiveJobFor(after, i, id) && LiveJobFor(after, k, id) ensures i == k {
      assert LiveJobFor(jobs, i, id) && LiveJobFor(jobs, k, id);
    }
  }

  lemma WorkerStepKeepsQueue(s: State, a: Action)
    requires QueueOk(s) && IsWorkerStep(a)
    ensures QueueOk(Step(s, a))
  {
    var t := Step(s, a);
    forall v | v in t.checks ensures HoldsJob(t, v) { if v in s.checks { assert HoldsJob(s, v); } }
    match a
    case Claim(w, jobId, _) =>
      if t != s { ChangedJobKeepsOne(s.t.jobs, jobId, t.t.jobs[jobId]); }
    case MarkDone(w, _) =>
      if w in s.checks {
        var j := s.checks[w].lease.jobId;
        assert HoldsJob(s, w);
        if t.t != s.t { ChangedJobKeepsOne(s.t.jobs, j, t.t.jobs[j]); }
      }
    case Report(w, _, _) =>
      if w in s.checks {
        var j := s.checks[w].lease.jobId;
        assert HoldsJob(s, w);
        if t.t != s.t { ChangedJobKeepsOne(s.t.jobs, j, t.t.jobs[j]); }
      }
    case _ =>
  }

  lemma StepKeepsQueue(s: State, a: Action)
    requires QueueOk(s) && !a.RetryJob?
    ensures QueueOk(Step(s, a))
  {
    var t := Step(s, a);
    if IsWorkerStep(a) { WorkerStepKeepsQueue(s, a); return; }
    forall v | v in t.checks ensures HoldsJob(t, v) { if v in s.checks { assert HoldsJob(s, v); } }
    match a
    case CreateListing(id, owner, endpoint, visibility, jobId) =>
      if id !in s.t.listings && jobId !in s.t.jobs {
        var listing := Listing(owner, endpoint, visibility, PendingVerification, CheckPending, None, None, None);
        EnqueueKeepsOne(s.t.(listings := s.t.listings[id := listing]), id, jobId);
      }
    case UpdateListing(_, id, endpoint, visibility, jobId) =>
      if id in s.t.listings && jobId !in s.t.jobs {
        var reset := s.t.listings[id].(endpoint := endpoint, visibility := visibility,
                                       status := PendingVerification, check := CheckPending);
        EnqueueKeepsOne(s.t.(listings := s.t.listings[id := reset]), id, jobId);
      }
    case RequestCheck(_, id, jobId) =>
      if id in s.t.listings && jobId !in s.t.jobs {
        var reset := s.t.listings[id].(status := PendingVerification, check := CheckPending);
        EnqueueKeepsOne(s.t.(listings := s.t.listings[id := reset]), id, jobId);
      }
    case Schedule(id, jobId) => if jobId !in s.t.jobs { EnqueueKeepsOne(s.t, id, jobId); }
    case _ =>
  }

  lemma {:induction false} RunKeepsQueue(actions: seq<Action>)
    requires forall i | 0 <= i < |actions| :: !actions[i].RetryJob?
    ensures QueueOk(Run(START, actions))
    decreases |actions|
  {
    if |actions| > 0 {
      RunKeepsQueue(actions[..|actions| - 1]);
      StepKeepsQueue(Run(START, actions[..|actions| - 1]), actions[|actions| - 1]);
    }
  }

  /** Without admin retries, a server never has two checks pending or running. */
  lemma AtMostOneLiveCheck(actions: seq<Action>, id: ServerId, i: JobId, j: JobId)
    requires forall k | 0 <= k < |actions| :: !actions[k].RetryJob?
    ensures var jobs := Run(START, actions).t.jobs; LiveJobFor(jobs, i, id) && LiveJobFor(jobs, j, id) ==> i == j
  {
    RunKeepsQueue(actions);
  }

  /** An admin retry keeps it so exactly when no other check of the server is live. */
  lemma RetryKeepsOneIff(s: State, jobId: JobId, now: Time)
    requires OneLiveJob(s.t.jobs) && jobId in s.t.jobs && Retryable(s.t.jobs[jobId])
    ensures OneLiveJob(Step(s, RetryJob(jobId, now)).t.jobs) <==> !HasLiveJob(s.t.jobs, s.t.jobs[jobId].payload)
  {
    var after := Step(s, RetryJob(jobId, now)).t.jobs;
    var id := s.t.jobs[jobId].payload;
    assert LiveJobFor(after, jobId, id);
    if HasLiveJob(s.t.jobs, id) {
      var j :| j in s.t.jobs && LiveJobFor(s.t.jobs, j, id);
      assert LiveJobFor(after, j, id);
    } else {
      forall i, j, k | LiveJobFor(after, i, k) && LiveJobFor(after, j, k) ensures i == j {
        if i != jobId { assert LiveJobFor(s.t.jobs, i, k); }
        if j != jobId { assert LiveJobFor(s.t.jobs, j, k); }
      }
    }
  }

  // ----- What does not hold ------------------------------------------------------------

  /** A restore leaves a published listing without a publication time exactly when it had none and is not deleted. */
  lemma RestoreWithoutTimeIff(s: State, id: ServerId, now: Time)
    requires AllEarned(s) && id in s.t.listings
    ensures var l := Step(s, RestoreListing(id, now)).t.listings[id];
      (l.status == Published && l.publishedAt == None) <==>
      (s.t.listings[id].deletedAt == None && s.t.listings[id].publishedAt == None)
  {
    assert Earned(s, id);
  }

  /** In particular an admin may show a listing that no check ever reached. */
  lemma RestoredWithoutProbe(s: State, id: ServerId, now: Time)
    requires AllEarned(s) && id in s.t.listings && !Mentions(s.probed, id)
    requires s.t.listings[id].deletedAt == None && s.t.listings[id].visibility == Public
    ensures var end := Step(s, RestoreListing(id, now));
      Shown(end.t.listings[id]) && end.t.listings[id].publishedAt == None && !Mentions(end.probed, id)
  {
    assert Earned(s, id);
    RestoreWithoutTimeIff(s, id, now);
  }

  /** The worker on a check has a live job, so a move meanwhile queues no other. */
  lemma NoSecondCheck(s: State, w: WorkerId, id: ServerId, jobId: JobId)
    requires QueueOk(s) && w in s.checks && s.checks[w].lease.payload == id
    ensures HasLiveJob(s.t.jobs, id)
  {
    assert HoldsJob(s, w);
    assert LiveJobFor(s.t.jobs, s.checks[w].lease.jobId, id);
  }

  /**
    First way to expose an unbacked address: a check that is under way while the owner moves
    the listing publishes the new endpoint, backed only if its address is the probed one or
    was backed before. The move queued no further check.
   */
  lemma StaleCheckPublishesNewEndpoint(s: State, w: WorkerId, id: ServerId, moved: Endpoint, jobId: JobId, at: Time)
    requires QueueOk(s) && id in s.t.listings && w in s.checks
    requires s.checks[w].Probing? && s.checks[w].lease.payload == id
    requires s.checks[w].target == s.t.listings[id].endpoint.address
    requires s.t.listings[id].deletedAt == None && s.t.listings[id].hiddenAt == None
    requires moved != s.t.listings[id].endpoint && jobId !in s.t.jobs
    ensures var owner := s.t.listings[id].owner;
      var end := Step(Step(s, UpdateListing(owner, id, moved, Public, jobId)), FinishProbe(w, true, at, true));
      && Shown(end.t.listings[id])
      && end.t.listings[id].endpoint == moved
      && end.t.jobs == s.t.jobs
      && (Backed(end, id) <==> moved.address == s.checks[w].target || (id, moved.address) in s.probed + s.restored)
  {
    var owner := s.t.listings[id].owner;
    var t := Step(s, UpdateListing(owner, id, moved, Public, jobId));
    NoSecondCheck(s, w, id, jobId);
    assert t.t.listings[id].status == PendingVerification && t.checks == s.checks;
    assert Checkable(t.t, id);
    assert Step(t, FinishProbe(w, true, at, true)).t == CompleteCheck(t.t, id, CheckOnline, at);
  }

  /**
    Second way, with nothing under way at the move: a listing that was published, has moved and
    is then found offline at its new address stays on the public page with that address,
    backed only if it was before.
   */
  lemma OfflineCheckShowsMovedEndpoint(s: State, w: WorkerId, id: ServerId, moved: Endpoint, jobId: JobId, at: Time)
    requires id in s.t.listings && w !in s.checks && jobId !in s.t.jobs && !HasLiveJob(s.t.jobs, id)
    requires s.t.listings[id].status == Published && s.t.listings[id].publishedAt != None
    requires s.t.listings[id].deletedAt == None && s.t.listings[id].hiddenAt == None
    requires moved != s.t.listings[id].endpoint
    ensures var move := Step(s, UpdateListing(s.t.listings[id].owner, id, moved, Public, jobId));
      var loaded := Step(Step(move, Claim(w, jobId, at)), LoadTarget(w, true));
      var end := Step(loaded, FinishProbe(w, false, at, true));
      && w in loaded.checks && loaded.checks[w].Probing? && loaded.checks[w].target == moved.address
      && Shown(end.t.listings[id]) && end.t.listings[id].endpoint == moved
      && end.probed == s.probed && end.restored == s.restored
      && (Backed(end, id) <==> (id, moved.address) in s.probed + s.restored)
  {
    var owner := s.t.listings[id].owner;
    var move := Step(s, UpdateListing(owner, id, moved, Public, jobId));
    assert move.t.listings[id].status == PendingVerification;
    assert move.t.jobs[jobId] == NewJob(ServerCheckQueue, id, None, CHECK_ATTEMPTS);
    var claimed := Step(move, Claim(w, jobId, at));
    assert claimed.checks[w].Leased? && claimed.checks[w].lease.payload == id;
    var loaded := Step(claimed, LoadTarget(w, true));
    assert loaded.checks[w].Probing? && loaded.t.listings == move.t.listings;
    assert Step(loaded, FinishProbe(w, false, at, true)).t == CompleteCheck(loaded.t, id, CheckOffline, at);
  }
}
