/**
  The derived search index. Processing a search job takes a read, an index write and a
  report, with any transactions in between; a job that fails is claimed again later. The
  table lets any pending job be claimed at any time, and whether the index ends up right
  depends on those claims alone: this module says exactly which ones are safe.
 */
module SearchSync {
  import opened Wrappers
  import opened Jobs
  import opened Publication
  import opened PublicationProofs
  import opened Protocol
  import opened ProtocolProofs
  import opened PublicationSteps

  predicate OpenJobOf(db: Db, k: JobId, c: ItemId) {
    k < |db.search| && db.search[k].payload.contentId == c && Open(db.search[k])
  }

  ghost predicate HasOpenJob(db: Db, c: ItemId) {
    exists k: JobId :: OpenJobOf(db, k, c)
  }

  predicate HoldsSync(db: Db, pid: WorkerId, lease: SyncLease) {
    && lease.jobId < |db.search|
    && db.search[lease.jobId].status == Running
    && db.search[lease.jobId].lockedBy == Some(pid)
    && lease == LeaseOf(lease.jobId, db.search[lease.jobId])
  }

  ghost predicate Leases(s: State) {
    forall p | p in s.syncs :: HoldsSync(s.db, p, s.syncs[p].lease)
  }

  function ItemOf(sync: Sync): ItemId {
    sync.lease.payload.contentId
  }

  // ----- What the index is for ---------------------------------------------------------

  /** Two aims: the index holds the document the public may see, or merely no item it may not see. */
  datatype Aim = SameDocument | NoOrphan

  predicate Fits(aim: Aim, shown: Option<Meta>, doc: Option<Meta>) {
    match aim
    case SameDocument => shown == doc
    case NoOrphan => shown.Some? ==> doc.Some?
  }

  /** The index meets the aim for every item that has no unfinished job. */
  ghost predicate Meets(aim: Aim, s: State) {
    forall c: ItemId :: HasOpenJob(s.db, c) || Fits(aim, Indexed(s.index, c), DocOf(s.db, c))
  }

  /** A worker that may still finish its job; one about to report a failure gives it back. */
  predicate Busy(sync: Sync) {
    !sync.SyncReporting?
  }

  predicate HeldBy(sync: Sync, k: JobId) {
    Busy(sync) && sync.lease.jobId == k
  }

  /** An unfinished job of the item that nobody can finish without claiming it first. */
  ghost predicate Free(s: State, k: JobId, c: ItemId) {
    OpenJobOf(s.db, k, c) && forall p | p in s.syncs :: !HeldBy(s.syncs[p], k)
  }

  ghost predicate HasFree(s: State, c: ItemId) {
    exists k: JobId :: Free(s, k, c)
  }

  predicate Writer(s: State, p: WorkerId, c: ItemId) {
    p in s.syncs && (s.syncs[p].SyncLeased? || s.syncs[p].SyncRead?) && ItemOf(s.syncs[p]) == c
  }

  /** What the worker has read, or would read now. */
  function Reading(db: Db, sync: Sync): Option<Meta>
    requires sync.SyncLeased? || sync.SyncRead?
  {
    if sync.SyncLeased? then ReadDoc(db, sync.lease.payload) else sync.doc
  }

  ghost predicate WritersFresh(aim: Aim, s: State, c: ItemId) {
    forall p | Writer(s, p, c) :: Fits(aim, Reading(s.db, s.syncs[p]), DocOf(s.db, c))
  }

  ghost predicate HasWriter(s: State, c: ItemId) {
    exists p :: Writer(s, p, c)
  }

  /** Another job will look at the item, or all that is yet to be written of it fits, or nothing is and the index does. */
  ghost predicate OnCourse(aim: Aim, s: State, c: ItemId) {
    || HasFree(s, c)
    || (WritersFresh(aim, s, c) && (HasWriter(s, c) || Fits(aim, Indexed(s.index, c), DocOf(s.db, c))))
  }

  ghost predicate Sound(aim: Aim, s: State) {
    Leases(s) && forall c: ItemId :: OnCourse(aim, s, c)
  }

  lemma SoundMeets(aim: Aim, s: State)
    requires Sound(aim, s)
    ensures Meets(aim, s)
  {
    forall c: ItemId ensures HasOpenJob(s.db, c) || Fits(aim, Indexed(s.index, c), DocOf(s.db, c)) {
      assert OnCourse(aim, s, c);
      if HasFree(s, c) {
        var k: JobId :| Free(s, k, c);
        assert OpenJobOf(s.db, k, c);
      } else if HasWriter(s, c) {
        var p :| Writer(s, p, c);
        assert OpenJobOf(s.db, s.syncs[p].lease.jobId, c);
      }
    }
  }

  // ----- The condition on a claim ------------------------------------------------------

  /** The claim takes effect: the worker is idle and the job is eligible. */
  predicate Claims(s: State, a: Action) {
    && a.ClaimSync? && a.pid !in s.syncs
    && a.jobId < |s.db.search| && Claimable(s.db.search[a.jobId], SearchQueue, a.now)
  }

  ghost predicate HasOtherFree(s: State, k: JobId, c: ItemId) {
    exists i: JobId :: i != k && Free(s, i, c)
  }

  /**
    A claim is safe if another free job of the item stays behind, or else if everything
    still to be written of the item, by this job too, fits what the public may see now.
   */
  ghost predicate Safe(aim: Aim, s: State, a: Action) {
    Claims(s, a) ==>
      var payload := s.db.search[a.jobId].payload;
      || HasOtherFree(s, a.jobId, payload.contentId)
      || (WritersFresh(aim, s, payload.contentId)
          && Fits(aim, ReadDoc(s.db, payload), DocOf(s.db, payload.contentId)))
  }

  // ----- Steps outside the search workers ----------------------------------------------

  /** Jobs are only appended, and a change of visibility appends one for that item. */
  lemma AnnouncedJobs(db: Db, after: Db, c: ItemId)
    requires Announced(db, after)
    ensures |db.search| <= |after.search| <= |db.search| + 1
    ensures forall k: JobId | k < |db.search| :: after.search[k] == db.search[k]
    ensures DocOf(after, c) == DocOf(db, c) || OpenJobOf(after, |db.search|, c)
    ensures |db.search| < |after.search| ==>
      && after.search[|db.search|].payload.contentId in after.items
      && (after.search[|db.search|].payload == SearchPayload(c, Delete) ==> !Visible(after, c))
  {
    if after.search != db.search {
      var d, action :| AnnouncedOne(db, after, d, action);
      assert after.search[|db.search|] == NewSearch(d, action);
    }
  }

  lemma ScanFrame(s: State, a: Action)
    requires IsScan(a)
    ensures ScanStep(s, a).index == s.index && ScanStep(s, a).syncs == s.syncs
  {
  }

  lemma PublishFrame(s: State, a: Action)
    requires a.Publish?
    ensures PromotionStep(s, a).index == s.index && PromotionStep(s, a).syncs == s.syncs
  {
  }

  lemma PromotionFrame(s: State, a: Action)
    requires IsPromotion(a)
    ensures PromotionStep(s, a).index == s.index && PromotionStep(s, a).syncs == s.syncs
  {
    if a.Publish? { PublishFrame(s, a); }
  }

  lemma UploadFrame(s: State, a: Action)
    requires IsUpload(a)
    ensures UploadStep(s, a).index == s.index && UploadStep(s, a).syncs == s.syncs
  {
  }

  lemma OtherStepFrame(s: State, a: Action)
    requires !IsSync(a)
    ensures Apply(s, a).index == s.index && Apply(s, a).syncs == s.syncs
  {
    if IsUpload(a) { UploadFrame(s, a); }
    else if IsScan(a) { ScanFrame(s, a); }
    else if IsPromotion(a) { PromotionFrame(s, a); }
  }

  lemma OtherStepSound(aim: Aim, s: State, a: Action)
    requires Inv(s) && Sound(aim, s) && !IsSync(a)
    ensures Sound(aim, Apply(s, a))
  {
    OtherStepFrame(s, a);
    StepMoves(s, a);
    forall c: ItemId ensures OnCourse(aim, Apply(s, a), c) { AnnouncementOnCourse(aim, s, Apply(s, a), c); }
    AnnouncementLeases(s, Apply(s, a));
  }

  lemma AnnouncementLeases(s: State, t: State)
    requires Leases(s) && Announced(s.db, t.db) && t.syncs == s.syncs
    ensures Leases(t)
  {
    AnnouncedJobs(s.db, t.db, 0);
  }

  lemma AnnouncementOnCourse(aim: Aim, s: State, t: State, c: ItemId)
    requires Sound(aim, s) && Announced(s.db, t.db) && t.index == s.index && t.syncs == s.syncs
    ensures OnCourse(aim, t, c)
  {
    AnnouncedJobs(s.db, t.db, c);
    assert OnCourse(aim, s, c);
    if HasFree(s, c) {
      var k: JobId :| Free(s, k, c);
      assert Free(t, k, c);
    } else if DocOf(t.db, c) != DocOf(s.db, c) {
      assert Free(t, |s.db.search|, c);
    } else {
      forall p | Writer(t, p, c) ensures Fits(aim, Reading(t.db, t.syncs[p]), DocOf(t.db, c)) {
        assert Writer(s, p, c);
      }
      if HasWriter(s, c) {
        var p :| Writer(s, p, c);
        assert Writer(t, p, c);
      }
    }
  }

  // ----- Steps of the search workers ---------------------------------------------------

  /** One search job changes its state and keeps its payload. */
  predicate OneJobChanges(s: State, t: State, k: JobId) {
    && k < |s.db.search| == |t.db.search|
    && t.db == s.db.(search := s.db.search[k := t.db.search[k]])
    && t.db.search[k].payload == s.db.search[k].payload
  }

  lemma DocsStay(s: State, t: State, k: JobId)
    requires OneJobChanges(s, t, k)
    ensures forall c :: DocOf(t.db, c) == DocOf(s.db, c)
  {
  }

  /** What one worker does leaves every other item on its course. */
  lemma OtherItemOnCourse(aim: Aim, s: State, t: State, pid: WorkerId, k: JobId, c: ItemId)
    requires OnCourse(aim, s, c) && OneJobChanges(s, t, k) && s.db.search[k].payload.contentId != c
    requires forall p | p != pid :: (p in t.syncs <==> p in s.syncs) && (p in s.syncs ==> t.syncs[p] == s.syncs[p])
    requires pid in s.syncs ==> ItemOf(s.syncs[pid]) != c
    requires pid in t.syncs ==> ItemOf(t.syncs[pid]) != c && t.syncs[pid].lease.jobId == k
    requires Indexed(t.index, c) == Indexed(s.index, c)
    ensures OnCourse(aim, t, c)
  {
    DocsStay(s, t, k);
    forall i: JobId | Free(s, i, c) ensures Free(t, i, c) { }
    forall p | Writer(t, p, c) ensures Writer(s, p, c) && t.syncs[p] == s.syncs[p] { }
    forall p | Writer(s, p, c) ensures Writer(t, p, c) { }
  }

  /** No two workers hold one job. */
  lemma OneHolderOfJob(s: State, p: WorkerId, q: WorkerId)
    requires Leases(s) && p in s.syncs && q in s.syncs && s.syncs[p].lease.jobId == s.syncs[q].lease.jobId
    ensures p == q
  {
    assert HoldsSync(s.db, p, s.syncs[p].lease) && HoldsSync(s.db, q, s.syncs[q].lease);
  }

  lemma ClaimSound(aim: Aim, s: State, a: Action)
    requires Sound(aim, s) && Claims(s, a) && Safe(aim, s, a)
    ensures Sound(aim, SyncStep(s, a))
  {
    var t := SyncStep(s, a);
    var k, mine := a.jobId, s.db.search[a.jobId].payload.contentId;
    assert OneJobChanges(s, t, k);
    ClaimLeases(s, a);
    forall c: ItemId ensures OnCourse(aim, t, c) {
      assert OnCourse(aim, s, c);
      if c != mine { OtherItemOnCourse(aim, s, t, a.pid, k, c); } else { ClaimedItemOnCourse(aim, s, a); }
    }
  }

  lemma ClaimLeases(s: State, a: Action)
    requires Leases(s) && Claims(s, a)
    ensures Leases(SyncStep(s, a))
  {
    forall p | p in s.syncs ensures HoldsSync(SyncStep(s, a).db, p, s.syncs[p].lease) {
      assert HoldsSync(s.db, p, s.syncs[p].lease);
    }
  }

  lemma ClaimedItemOnCourse(aim: Aim, s: State, a: Action)
    requires Leases(s) && Claims(s, a) && Safe(aim, s, a)
    ensures OnCourse(aim, SyncStep(s, a), s.db.search[a.jobId].payload.contentId)
  {
    var t := SyncStep(s, a);
    var c := s.db.search[a.jobId].payload.contentId;
    DocsStay(s, t, a.jobId);
    if HasOtherFree(s, a.jobId, c) {
      var i: JobId :| i != a.jobId && Free(s, i, c);
      assert Free(t, i, c);
    } else {
      assert Writer(t, a.pid, c);
      forall p | Writer(t, p, c) ensures Fits(aim, Reading(t.db, t.syncs[p]), DocOf(t.db, c)) {
        if p != a.pid { assert Writer(s, p, c); }
      }
    }
  }

  lemma RetrySound(aim: Aim, s: State, a: Action)
    requires Sound(aim, s) && a.RetrySync?
    ensures Sound(aim, SyncStep(s, a))
  {
    var t := SyncStep(s, a);
    if t != s {
      assert OneJobChanges(s, t, a.jobId);
      DocsStay(s, t, a.jobId);
      forall p | p in t.syncs ensures HoldsSync(t.db, p, t.syncs[p].lease) { assert HoldsSync(s.db, p, s.syncs[p].lease); }
      forall c: ItemId ensures OnCourse(aim, t, c) {
        assert OnCourse(aim, s, c);
        forall i: JobId | Free(s, i, c) ensures Free(t, i, c) { }
        forall p | Writer(t, p, c) ensures Writer(s, p, c) { }
        forall p | Writer(s, p, c) ensures Writer(t, p, c) { }
      }
    }
  }

  /** A worker gives its job back, unfinished: by a failure, a report or a crash. */
  lemma ReleaseSound(aim: Aim, s: State, t: State, pid: WorkerId)
    requires Sound(aim, s) && pid in s.syncs
    requires var k := s.syncs[pid].lease.jobId; OneJobChanges(s, t, k) && Open(t.db.search[k])
    requires forall p | p != pid :: (p in t.syncs <==> p in s.syncs) && (p in s.syncs ==> t.syncs[p] == s.syncs[p])
    requires pid in t.syncs ==> t.syncs[pid] == SyncReporting(s.syncs[pid].lease) && t.db == s.db
    requires forall c: ItemId | c != ItemOf(s.syncs[pid]) :: Indexed(t.index, c) == Indexed(s.index, c)
    ensures Sound(aim, t)
  {
    var k := s.syncs[pid].lease.jobId;
    assert HoldsSync(s.db, pid, s.syncs[pid].lease);
    forall p | p in t.syncs && p != pid ensures HoldsSync(t.db, p, t.syncs[p].lease) && t.syncs[p].lease.jobId != k {
      assert HoldsSync(s.db, p, s.syncs[p].lease);
    }
    assert Free(t, k, ItemOf(s.syncs[pid]));
    forall c: ItemId ensures OnCourse(aim, t, c) {
      assert OnCourse(aim, s, c);
      if c != ItemOf(s.syncs[pid]) { OtherItemOnCourse(aim, s, t, pid, k, c); }
    }
  }

  lemma ReadSound(aim: Aim, s: State, a: Action)
    requires Sound(aim, s) && a.ReadSync?
    ensures Sound(aim, SyncStep(s, a))
  {
    var t := SyncStep(s, a);
    if t != s {
      forall p | p in t.syncs ensures HoldsSync(t.db, p, t.syncs[p].lease) { assert HoldsSync(s.db, p, s.syncs[p].lease); }
      forall c: ItemId ensures OnCourse(aim, t, c) {
        assert OnCourse(aim, s, c);
        forall i: JobId | Free(s, i, c) ensures Free(t, i, c) {
          forall p | p in t.syncs ensures !HeldBy(t.syncs[p], i) { assert !HeldBy(s.syncs[p], i); }
        }
        forall p | Writer(t, p, c) ensures Writer(s, p, c) && Reading(t.db, t.syncs[p]) == Reading(s.db, s.syncs[p]) { }
        forall p | Writer(s, p, c) ensures Writer(t, p, c) { }
      }
    }
  }

  /** A write that is acknowledged puts what was read into the index. */
  lemma WrittenSound(aim: Aim, s: State, pid: WorkerId)
    requires Sound(aim, s) && pid in s.syncs && s.syncs[pid].SyncRead?
    ensures Sound(aim, SyncStep(s, WriteSync(pid, true, true)))
  {
    var t := SyncStep(s, WriteSync(pid, true, true));
    var k, mine := s.syncs[pid].lease.jobId, ItemOf(s.syncs[pid]);
    assert HoldsSync(s.db, pid, s.syncs[pid].lease) && OneJobChanges(s, t, k);
    forall p | p in t.syncs ensures HoldsSync(t.db, p, t.syncs[p].lease) { assert HoldsSync(s.db, p, s.syncs[p].lease); }
    forall c: ItemId ensures OnCourse(aim, t, c) {
      assert OnCourse(aim, s, c);
      if c != mine { OtherItemOnCourse(aim, s, t, pid, k, c); } else { WrittenItemOnCourse(aim, s, pid); }
    }
  }

  lemma WrittenItemOnCourse(aim: Aim, s: State, pid: WorkerId)
    requires Leases(s) && pid in s.syncs && s.syncs[pid].SyncRead? && OnCourse(aim, s, ItemOf(s.syncs[pid]))
    ensures OnCourse(aim, SyncStep(s, WriteSync(pid, true, true)), ItemOf(s.syncs[pid]))
  {
    var t := SyncStep(s, WriteSync(pid, true, true));
    var c := ItemOf(s.syncs[pid]);
    if HasFree(s, c) {
      var k: JobId :| Free(s, k, c);
      forall p | p in t.syncs ensures !HeldBy(t.syncs[p], k) { assert !HeldBy(s.syncs[p], k); }
      assert Free(t, k, c);
    } else {
      assert Writer(s, pid, c);
      assert Indexed(t.index, c) == s.syncs[pid].doc;
      forall p | Writer(t, p, c) ensures Fits(aim, Reading(t.db, t.syncs[p]), DocOf(t.db, c)) {
        assert Writer(s, p, c);
      }
    }
  }

  lemma WriteSound(aim: Aim, s: State, a: Action)
    requires Sound(aim, s) && a.WriteSync?
    ensures Sound(aim, SyncStep(s, a))
  {
    if a.pid in s.syncs && s.syncs[a.pid].SyncRead? {
      assert HoldsSync(s.db, a.pid, s.syncs[a.pid].lease);
      if a.written && a.ok {
        WrittenSound(aim, s, a.pid);
      } else {
        ReleaseSound(aim, s, SyncStep(s, a), a.pid);
      }
    }
  }

  /** A finished job was not free, and its worker had nothing more to write. */
  lemma MarkedItemOnCourse(aim: Aim, s: State, t: State, pid: WorkerId)
    requires Leases(s) && pid in s.syncs && s.syncs[pid].SyncWritten? && OnCourse(aim, s, ItemOf(s.syncs[pid]))
    requires OneJobChanges(s, t, s.syncs[pid].lease.jobId) && t.syncs == s.syncs - {pid} && t.index == s.index
    ensures OnCourse(aim, t, ItemOf(s.syncs[pid]))
  {
    var c := ItemOf(s.syncs[pid]);
    DocsStay(s, t, s.syncs[pid].lease.jobId);
    if HasFree(s, c) {
      var k: JobId :| Free(s, k, c);
      assert !HeldBy(s.syncs[pid], k);
      assert Free(t, k, c);
    } else {
      forall p | Writer(t, p, c) ensures Fits(aim, Reading(t.db, t.syncs[p]), DocOf(t.db, c)) {
        assert Writer(s, p, c);
      }
      if HasWriter(s, c) {
        var p :| Writer(s, p, c);
        assert Writer(t, p, c);
      }
    }
  }

  lemma MarkSound(aim: Aim, s: State, a: Action)
    requires Sound(aim, s) && a.MarkSync?
    ensures Sound(aim, SyncStep(s, a))
  {
    if a.pid in s.syncs && s.syncs[a.pid].SyncWritten? {
      var t := SyncStep(s, a);
      assert HoldsSync(s.db, a.pid, s.syncs[a.pid].lease);
      if a.commit {
        var k := s.syncs[a.pid].lease.jobId;
        assert OneJobChanges(s, t, k);
        MarkLeases(s, t, a.pid);
        forall c: ItemId ensures OnCourse(aim, t, c) {
          assert OnCourse(aim, s, c);
          if c != ItemOf(s.syncs[a.pid]) { OtherItemOnCourse(aim, s, t, a.pid, k, c); }
          else { MarkedItemOnCourse(aim, s, t, a.pid); }
        }
      } else {
        ReleaseSound(aim, s, t, a.pid);
      }
    }
  }

  lemma MarkLeases(s: State, t: State, pid: WorkerId)
    requires Leases(s) && pid in s.syncs
    requires OneJobChanges(s, t, s.syncs[pid].lease.jobId) && t.syncs == s.syncs - {pid}
    ensures Leases(t)
  {
    forall p | p in t.syncs ensures HoldsSync(t.db, p, t.syncs[p].lease) {
      assert HoldsSync(s.db, p, s.syncs[p].lease);
      if s.syncs[p].lease.jobId == s.syncs[pid].lease.jobId { OneHolderOfJob(s, p, pid); }
    }
  }

  /** A report leaves the job unfinished and the index as it is. */
  lemma ReportFrame(s: State, a: Action)
    requires a.ReportSync? && a.pid in s.syncs && HoldsSync(s.db, a.pid, s.syncs[a.pid].lease)
    ensures var t := SyncStep(s, a); var k := s.syncs[a.pid].lease.jobId;
      && t.index == s.index && OneJobChanges(s, t, k) && Open(t.db.search[k])
      && (t.syncs == s.syncs - {a.pid} || t == s)
  {
  }

  lemma CrashFrame(s: State, a: Action)
    requires a.CrashSync?
    ensures SyncStep(s, a) == s.(syncs := s.syncs - {a.pid})
  {
  }

  lemma ReportOrCrashSound(aim: Aim, s: State, a: Action)
    requires Sound(aim, s) && (a.ReportSync? || a.CrashSync?)
    ensures Sound(aim, SyncStep(s, a))
  {
    var t := SyncStep(s, a);
    if a.pid in s.syncs {
      assert HoldsSync(s.db, a.pid, s.syncs[a.pid].lease);
      if a.CrashSync? { CrashFrame(s, a); } else { ReportFrame(s, a); }
      if t.syncs != s.syncs { ReleaseSound(aim, s, t, a.pid); }
    } else {
      assert t == s.(syncs := t.syncs) && t.syncs == s.syncs;
    }
  }

  lemma SyncSound(aim: Aim, s: State, a: Action)
    requires Sound(aim, s) && IsSync(a) && Safe(aim, s, a)
    ensures Sound(aim, SyncStep(s, a))
  {
    if Claims(s, a) { ClaimSound(aim, s, a); }
    else if a.RetrySync? { RetrySound(aim, s, a); }
    else if a.ReportSync? || a.CrashSync? { ReportOrCrashSound(aim, s, a); }
    else if a.ReadSync? { ReadSound(aim, s, a); }
    else if a.WriteSync? { WriteSound(aim, s, a); }
    else if a.MarkSync? { MarkSound(aim, s, a); }
  }

  lemma SyncApplySound(aim: Aim, s: State, a: Action)
    requires Sound(aim, s) && IsSync(a) && Safe(aim, s, a)
    ensures Sound(aim, Apply(s, a))
  {
    SyncSound(aim, s, a);
  }

  lemma ApplySound(aim: Aim, s: State, a: Action)
    requires Inv(s) && Sound(aim, s) && Safe(aim, s, a)
    ensures Sound(aim, Apply(s, a))
  {
    if IsSync(a) { SyncApplySound(aim, s, a); } else { OtherStepSound(aim, s, a); }
  }

  // ----- Runs of safe claims -----------------------------------------------------------

  ghost predicate AllSafe(aim: Aim, s: State, actions: seq<Action>)
    decreases |actions|
  {
    |actions| > 0 ==>
      && AllSafe(aim, s, actions[..|actions| - 1])
      && Safe(aim, Run(s, actions[..|actions| - 1]), actions[|actions| - 1])
  }

  lemma {:induction false} RunSound(aim: Aim, s: State, actions: seq<Action>)
    requires Inv(s) && Sound(aim, s) && AllSafe(aim, s, actions)
    ensures Sound(aim, Run(s, actions))
    decreases |actions|
  {
    if |actions| > 0 {
      var before := actions[..|actions| - 1];
      RunSound(aim, s, before);
      RunKeepsFrom(s, before);
      ApplySound(aim, Run(s, before), actions[|actions| - 1]);
    }
  }

  lemma StartIsSound(aim: Aim)
    ensures Sound(aim, START)
  {
    forall c: ItemId ensures OnCourse(aim, START, c) { }
  }

  /** As long as every claim is safe, the index meets its aim for every item without unfinished jobs. */
  lemma SafeRunsMeetTheirAim(aim: Aim, actions: seq<Action>)
    requires AllSafe(aim, START, actions)
    ensures Meets(aim, Run(START, actions))
  {
    RunKeeps([]);
    StartIsSound(aim);
    RunSound(aim, START, actions);
    SoundMeets(aim, Run(START, actions));
  }

  // ----- One unsafe claim --------------------------------------------------------------

  predicate NoClaims(actions: seq<Action>) {
    forall i | 0 <= i < |actions| :: !actions[i].ClaimSync?
  }

  /** Some run leads from one state to the other; a quiet one claims no further search job. */
  ghost predicate Reaches(quiet: bool, s: State, t: State) {
    exists actions :: (quiet ==> NoClaims(actions)) && t == Run(s, actions)
  }

  lemma ReachesItself(quiet: bool, s: State)
    ensures Reaches(quiet, s, s)
  {
    assert NoClaims([]) && s == Run(s, []);
  }

  lemma ReachesStep(quiet: bool, s: State, t: State, a: Action)
    requires Reaches(quiet, s, t) && (quiet ==> !a.ClaimSync?)
    ensures Reaches(quiet, s, Apply(t, a))
  {
    var actions :| (quiet ==> NoClaims(actions)) && t == Run(s, actions);
    assert (actions + [a])[..|actions|] == actions;
    assert quiet ==> NoClaims(actions + [a]);
    assert Apply(t, a) == Run(s, actions + [a]);
  }

  lemma ReadStep(quiet: bool, s: State, m: State, p: WorkerId) returns (t: State)
    requires Reaches(quiet, s, m) && p in m.syncs && m.syncs[p].SyncLeased?
    ensures Reaches(quiet, s, t)
    ensures var lease := m.syncs[p].lease;
      t == m.(syncs := m.syncs[p := SyncRead(lease, ReadDoc(m.db, lease.payload))])
  {
    t := Apply(m, ReadSync(p));
    ReachesStep(quiet, s, m, ReadSync(p));
  }

  lemma WriteStep(quiet: bool, s: State, m: State, p: WorkerId) returns (t: State)
    requires Reaches(quiet, s, m) && p in m.syncs && m.syncs[p].SyncRead?
    ensures Reaches(quiet, s, t)
    ensures var c := ItemOf(m.syncs[p]);
      t == m.(index := WrittenTo(m.index, c, m.syncs[p].doc),
              syncs := m.syncs[p := SyncWritten(m.syncs[p].lease)])
  {
    t := Apply(m, WriteSync(p, true, true));
    ReachesStep(quiet, s, m, WriteSync(p, true, true));
  }

  lemma MarkStep(quiet: bool, s: State, m: State, p: WorkerId) returns (t: State)
    requires Reaches(quiet, s, m) && p in m.syncs && m.syncs[p].SyncWritten? && m.syncs[p].lease.jobId < |m.db.search|
    ensures Reaches(quiet, s, t)
    ensures var k := m.syncs[p].lease.jobId;
      t == m.(db := m.db.(search := m.db.search[k := MarkedSucceeded(m.db.search[k])]), syncs := m.syncs - {p})
  {
    t := Apply(m, MarkSync(p, true));
    ReachesStep(quiet, s, m, MarkSync(p, true));
  }

  /** A worker that has not written yet reads, if it must, and writes. */
  lemma FinishWriting(s: State, m: State, p: WorkerId) returns (t: State)
    requires Reaches(true, s, m) && p in m.syncs && (m.syncs[p].SyncLeased? || m.syncs[p].SyncRead?)
    ensures Reaches(true, s, t)
    ensures var sync := m.syncs[p];
      t == m.(index := WrittenTo(m.index, ItemOf(sync), Reading(m.db, sync)),
              syncs := m.syncs[p := SyncWritten(sync.lease)])
  {
    if m.syncs[p].SyncLeased? {
      var read := ReadStep(true, s, m, p);
      t := WriteStep(true, s, read, p);
      assert t.syncs == m.syncs[p := SyncWritten(m.syncs[p].lease)];
    } else {
      t := WriteStep(true, s, m, p);
    }
  }

  /** A busy worker reads, writes and marks with nothing in between. */
  lemma Finish(s: State, m: State, p: WorkerId) returns (t: State)
    requires Reaches(true, s, m) && Leases(m) && p in m.syncs && Busy(m.syncs[p])
    ensures Reaches(true, s, t)
    ensures var sync := m.syncs[p]; var k := sync.lease.jobId;
      && k < |m.db.search|
      && t.db == m.db.(search := m.db.search[k := MarkedSucceeded(m.db.search[k])])
      && t.syncs == m.syncs - {p}
      && t.index == if sync.SyncWritten? then m.index else WrittenTo(m.index, ItemOf(sync), Reading(m.db, sync))
  {
    assert HoldsSync(m.db, p, m.syncs[p].lease);
    if m.syncs[p].SyncWritten? {
      t := MarkStep(true, s, m, p);
    } else {
      var written := FinishWriting(s, m, p);
      t := MarkStep(true, s, written, p);
      assert t.syncs == m.syncs - {p};
    }
  }

  /** Everyone on the item but the given worker. */
  function OthersOn(s: State, x: WorkerId, c: ItemId): set<WorkerId> {
    set p | p in s.syncs && p != x && ItemOf(s.syncs[p]) == c
  }

  /** With no free job of the item, a worker on it is busy: a failed one would have given its job back. */
  lemma NoFreeMeansBusy(s: State, p: WorkerId)
    requires Leases(s) && p in s.syncs && !HasFree(s, ItemOf(s.syncs[p]))
    ensures Busy(s.syncs[p])
  {
    assert HoldsSync(s.db, p, s.syncs[p].lease);
    var k := s.syncs[p].lease.jobId;
    if !Busy(s.syncs[p]) {
      forall q | q in s.syncs ensures !HeldBy(s.syncs[q], k) {
        if s.syncs[q].lease.jobId == k { OneHolderOfJob(s, p, q); }
      }
      assert Free(s, k, ItemOf(s.syncs[p]));
    }
  }

  /** Letting one worker finish frees no job. */
  lemma FinishFreesNothing(m: State, t: State, p: WorkerId, c: ItemId)
    requires Leases(m) && p in m.syncs && !HasFree(m, c)
    requires OneJobChanges(m, t, m.syncs[p].lease.jobId) && t.syncs == m.syncs - {p}
    requires !Open(t.db.search[m.syncs[p].lease.jobId])
    ensures !HasFree(t, c)
  {
    forall k: JobId ensures !Free(t, k, c) {
      if Free(t, k, c) {
        forall q | q in m.syncs ensures !HeldBy(m.syncs[q], k) {
          if q != p { assert !HeldBy(t.syncs[q], k); }
        }
        assert Free(m, k, c);
      }
    }
  }

  /** Another worker on the item finishes; the waiting one has read, or would read, the same. */
  lemma FinishOther(s: State, m: State, x: WorkerId, p: WorkerId, c: ItemId) returns (n: State)
    requires Reaches(true, s, m) && Leases(m) && Writer(m, x, c) && !HasFree(m, c) && p in OthersOn(m, x, c)
    ensures Reaches(true, s, n) && Leases(n) && Writer(n, x, c) && !HasFree(n, c)
    ensures Reading(n.db, n.syncs[x]) == Reading(m.db, m.syncs[x]) && DocOf(n.db, c) == DocOf(m.db, c)
    ensures OthersOn(n, x, c) == OthersOn(m, x, c) - {p}
  {
    NoFreeMeansBusy(m, p);
    n := Finish(s, m, p);
    DocsStay(m, n, m.syncs[p].lease.jobId);
    MarkLeases(m, n, p);
    FinishFreesNothing(m, n, p, c);
  }

  /**
    A worker about to write what does not fit, and no free job of the item to correct it:
    once everyone else has finished, it writes last and the index stays wrong.
   */
  lemma {:induction false} StaleWriterStrays(aim: Aim, s: State, m: State, x: WorkerId, c: ItemId) returns (t: State)
    requires Reaches(true, s, m) && Leases(m) && Writer(m, x, c) && !HasFree(m, c)
    requires !Fits(aim, Reading(m.db, m.syncs[x]), DocOf(m.db, c))
    ensures Reaches(true, s, t) && !HasOpenJob(t.db, c) && !Fits(aim, Indexed(t.index, c), DocOf(t.db, c))
    decreases |OthersOn(m, x, c)|
  {
    if OthersOn(m, x, c) == {} {
      t := Finish(s, m, x);
      DocsStay(m, t, m.syncs[x].lease.jobId);
      forall k: JobId ensures !OpenJobOf(t.db, k, c) { LastJobHeld(m, t, x, c, k); }
    } else {
      var p :| p in OthersOn(m, x, c);
      var n := FinishOther(s, m, x, p, c);
      t := StaleWriterStrays(aim, s, n, x, c);
    }
  }

  /** Without free jobs, the only open jobs of an item are those of the workers on it. */
  lemma LastJobHeld(m: State, t: State, x: WorkerId, c: ItemId, k: JobId)
    requires Leases(m) && x in m.syncs && !HasFree(m, c) && OthersOn(m, x, c) == {}
    requires var j := m.syncs[x].lease.jobId; OneJobChanges(m, t, j) && !Open(t.db.search[j])
    ensures !OpenJobOf(t.db, k, c)
  {
    assert OpenJobOf(t.db, k, c) ==> k != m.syncs[x].lease.jobId && OpenJobOf(m.db, k, c);
    forall p | p in m.syncs && HeldBy(m.syncs[p], k) ensures OpenJobOf(m.db, k, c) ==> p == x {
      assert HoldsSync(m.db, p, m.syncs[p].lease);
      assert ItemOf(m.syncs[p]) == c && p != x ==> p in OthersOn(m, x, c);
    }
    assert !Free(m, k, c);
  }

  /** Without another free job of the item, the claim leaves none. */
  lemma ClaimTakesLastFree(s: State, a: Action)
    requires Claims(s, a) && !HasOtherFree(s, a.jobId, s.db.search[a.jobId].payload.contentId)
    ensures !HasFree(SyncStep(s, a), s.db.search[a.jobId].payload.contentId)
  {
    var m := SyncStep(s, a);
    var c := s.db.search[a.jobId].payload.contentId;
    forall k: JobId ensures !Free(m, k, c) {
      if Free(m, k, c) {
        assert HeldBy(m.syncs[a.pid], a.jobId);
        forall p | p in s.syncs ensures !HeldBy(s.syncs[p], k) { assert !HeldBy(m.syncs[p], k); }
        assert k != a.jobId && Free(s, k, c);
      }
    }
  }

  /** After an unsafe claim someone, perhaps the claimant, is about to write what does not fit. */
  lemma StaleAfterClaim(aim: Aim, s: State, a: Action) returns (x: WorkerId)
    requires Claims(s, a) && !Safe(aim, s, a)
    ensures var m := SyncStep(s, a);
      var c := s.db.search[a.jobId].payload.contentId;
      Writer(m, x, c) && !Fits(aim, Reading(m.db, m.syncs[x]), DocOf(m.db, c))
  {
    var c := s.db.search[a.jobId].payload.contentId;
    DocsStay(s, SyncStep(s, a), a.jobId);
    x := a.pid;
    if Fits(aim, ReadDoc(s.db, s.db.search[a.jobId].payload), DocOf(s.db, c)) {
      x :| Writer(s, x, c) && !Fits(aim, Reading(s.db, s.syncs[x]), DocOf(s.db, c));
    }
  }

  /** An unsafe claim can leave the index wrong for good, with no further claim at all. */
  lemma UnsafeClaimStrays(aim: Aim, s: State, a: Action) returns (t: State)
    requires Leases(s) && Claims(s, a) && !Safe(aim, s, a)
    ensures Reaches(true, Apply(s, a), t) && !Meets(aim, t)
  {
    var m := Apply(s, a);
    var c := s.db.search[a.jobId].payload.contentId;
    ClaimLeases(s, a);
    ClaimTakesLastFree(s, a);
    var x := StaleAfterClaim(aim, s, a);
    ReachesItself(true, m);
    t := StaleWriterStrays(aim, m, m, x, c);
  }

  lemma {:induction false} QuietIsSafe(aim: Aim, s: State, actions: seq<Action>)
    requires NoClaims(actions)
    ensures AllSafe(aim, s, actions)
    decreases |actions|
  {
    if |actions| > 0 { QuietIsSafe(aim, s, actions[..|actions| - 1]); }
  }

  lemma SafeClaimStaysOnCourse(aim: Aim, s: State, a: Action, rest: seq<Action>)
    requires Inv(s) && Sound(aim, s) && Safe(aim, s, a) && AllSafe(aim, Apply(s, a), rest)
    ensures Meets(aim, Run(Apply(s, a), rest))
  {
    ApplyKeeps(s, a);
    ApplySound(aim, s, a);
    RunSound(aim, Apply(s, a), rest);
    SoundMeets(aim, Run(Apply(s, a), rest));
  }

  lemma {:induction false} UnsafeClaimHasBadRun(aim: Aim, s: State, a: Action) returns (rest: seq<Action>)
    requires Leases(s) && Claims(s, a) && !Safe(aim, s, a)
    ensures AllSafe(aim, Apply(s, a), rest) && !Meets(aim, Run(Apply(s, a), rest))
  {
    var m := Apply(s, a);
    var t := UnsafeClaimStrays(aim, s, a);
    rest :| NoClaims(rest) && t == Run(m, rest);
    QuietIsSafe(aim, m, rest);
  }

  /**
    The condition is exact. From any sound state, a claim is safe if and only if the index
    meets its aim after every further run of safe claims.
   */
  lemma {:induction false} ClaimSafeIff(aim: Aim, s: State, a: Action)
    requires Inv(s) && Sound(aim, s) && Claims(s, a)
    ensures Safe(aim, s, a) <==>
      forall rest | AllSafe(aim, Apply(s, a), rest) :: Meets(aim, Run(Apply(s, a), rest))
  {
    if Safe(aim, s, a) {
      forall rest | AllSafe(aim, Apply(s, a), rest) ensures Meets(aim, Run(Apply(s, a), rest)) {
        SafeClaimStaysOnCourse(aim, s, a, rest);
      }
    } else {
      var rest := UnsafeClaimHasBadRun(aim, s, a);
    }
  }
}
