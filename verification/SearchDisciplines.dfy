/**
  Two simple disciplines on claims and what each is worth, and the two ways in which an
  index goes wrong when a claim is not safe.
 */
module SearchDisciplines {
  import opened Wrappers
  import opened Jobs
  import opened Publication
  import opened PublicationProofs
  import opened Protocol
  import opened ProtocolProofs
  import opened PublicationSteps
  import opened SearchSync

  // ----- Two disciplines that keep claims safe -----------------------------------------

  /** Nobody is at work on the item of the claimed job. */
  predicate Alone(s: State, a: Action) {
    Claims(s, a) ==> forall q | q in s.syncs :: ItemOf(s.syncs[q]) != s.db.search[a.jobId].payload.contentId
  }

  predicate AllAlone(actions: seq<Action>)
    decreases |actions|
  {
    |actions| > 0 ==>
      && AllAlone(actions[..|actions| - 1])
      && Alone(Run(START, actions[..|actions| - 1]), actions[|actions| - 1])
  }

  lemma {:induction false} AloneIsSafe(actions: seq<Action>)
    requires AllAlone(actions)
    ensures AllSafe(NoOrphan, START, actions)
    decreases |actions|
  {
    if |actions| > 0 { AloneIsSafe(actions[..|actions| - 1]); }
  }

  /**
    With at most one worker per item, an indexed item that is not publicly visible always
    has an unfinished search job, although reads, index writes and transactions interleave.
   */
  lemma NoOrphansWhileAlone(actions: seq<Action>, c: ItemId)
    requires AllAlone(actions)
    ensures var s := Run(START, actions);
      c in s.index && !Visible(s.db, c) ==> HasOpenJob(s.db, c)
  {
    AloneIsSafe(actions);
    SafeRunsMeetTheirAim(NoOrphan, actions);
  }

  predicate EarlierDone(db: Db, k: JobId)
    requires k < |db.search|
  {
    forall i | 0 <= i < k && db.search[i].payload.contentId == db.search[k].payload.contentId :: !Open(db.search[i])
  }

  /** Every earlier job of the claimed job's item has succeeded. */
  predicate InOrder(s: State, a: Action) {
    Claims(s, a) ==> EarlierDone(s.db, a.jobId)
  }

  predicate AllInOrder(actions: seq<Action>)
    decreases |actions|
  {
    |actions| > 0 ==>
      && AllInOrder(actions[..|actions| - 1])
      && InOrder(Run(START, actions[..|actions| - 1]), actions[|actions| - 1])
  }

  predicate LastOfItem(db: Db, k: JobId)
    requires k < |db.search|
  {
    forall i | k < i < |db.search| :: db.search[i].payload.contentId != db.search[k].payload.contentId
  }

  /** A finished job had no unfinished one before it, and the last word on an item is never an outdated delete. */
  ghost predicate JobOrdered(db: Db, k: JobId)
    requires k < |db.search|
  {
    && (!Open(db.search[k]) ==> EarlierDone(db, k))
    && (LastOfItem(db, k) && db.search[k].payload.action == Delete ==> !Visible(db, db.search[k].payload.contentId))
  }

  ghost predicate Ordered(s: State) {
    && Leases(s)
    && (forall k: JobId | k < |s.db.search| :: JobOrdered(s.db, k))
    && (forall p | p in s.syncs :: EarlierDone(s.db, s.syncs[p].lease.jobId))
  }

  /** In order, a claimed job's item has no other worker, and an outdated delete has a later job behind it. */
  lemma InOrderIsSafe(s: State, a: Action)
    requires Ordered(s) && InOrder(s, a)
    ensures Safe(SameDocument, s, a)
  {
    if Claims(s, a) {
      var k := a.jobId;
      var c := s.db.search[k].payload.contentId;
      forall p | p in s.syncs ensures ItemOf(s.syncs[p]) != c {
        assert HoldsSync(s.db, p, s.syncs[p].lease) && EarlierDone(s.db, s.syncs[p].lease.jobId);
      }
      if !LastOfItem(s.db, k) {
        var i: JobId :| k < i < |s.db.search| && s.db.search[i].payload.contentId == c;
        assert JobOrdered(s.db, i);
        forall p | p in s.syncs ensures !HeldBy(s.syncs[p], i) { assert HoldsSync(s.db, p, s.syncs[p].lease); }
        assert Free(s, i, c);
      } else {
        assert JobOrdered(s.db, k);
      }
    }
  }

  lemma AnnouncementOrdered(s: State, t: State)
    requires Ordered(s) && Announced(s.db, t.db) && t.syncs == s.syncs
    ensures Ordered(t)
  {
    AnnouncementLeases(s, t);
    forall k: JobId | k < |t.db.search| ensures JobOrdered(t.db, k) {
      AnnouncedJobs(s.db, t.db, t.db.search[k].payload.contentId);
      if k < |s.db.search| {
        assert JobOrdered(s.db, k);
        assert LastOfItem(t.db, k) ==> LastOfItem(s.db, k);
      }
    }
    forall p | p in t.syncs ensures EarlierDone(t.db, t.syncs[p].lease.jobId) {
      assert EarlierDone(s.db, s.syncs[p].lease.jobId);
      AnnouncedJobs(s.db, t.db, ItemOf(s.syncs[p]));
    }
  }

  /** One job changes; if it finishes, nothing of its item before it was unfinished. */
  lemma JobChangeOrdered(s: State, t: State, k: JobId)
    requires Ordered(s) && OneJobChanges(s, t, k) && Leases(t)
    requires Open(s.db.search[k]) || !Open(t.db.search[k])
    requires Open(t.db.search[k]) || EarlierDone(s.db, k)
    requires forall p | p in t.syncs :: (p in s.syncs && t.syncs[p].lease == s.syncs[p].lease)
                                     || (t.syncs[p].lease.jobId == k && EarlierDone(s.db, k))
    ensures Ordered(t)
  {
    assert forall i: JobId | i < |s.db.search| :: t.db.search[i].payload == s.db.search[i].payload;
    assert forall i: JobId | i < |s.db.search| && !Open(s.db.search[i]) :: !Open(t.db.search[i]);
    forall i: JobId | i < |s.db.search| && EarlierDone(s.db, i) ensures EarlierDone(t.db, i) { }
    forall i: JobId | i < |t.db.search| ensures JobOrdered(t.db, i) {
      assert JobOrdered(s.db, i);
      assert LastOfItem(t.db, i) ==> LastOfItem(s.db, i);
    }
    forall p | p in t.syncs ensures EarlierDone(t.db, t.syncs[p].lease.jobId) {
      assert p in s.syncs ==> HoldsSync(s.db, p, s.syncs[p].lease);
    }
  }

  /** Reading, writing and crashing touch no job. */
  lemma TouchlessFrame(s: State, a: Action)
    requires (a.ReadSync? || a.WriteSync? || a.CrashSync?) && a.pid in s.syncs
    ensures SyncStep(s, a).db == s.db
    ensures forall p | p in SyncStep(s, a).syncs :: p in s.syncs && SyncStep(s, a).syncs[p].lease == s.syncs[p].lease
  {
  }

  /** Marking and reporting change the worker's own job. */
  lemma EndingFrame(s: State, a: Action)
    requires (a.MarkSync? || a.ReportSync?) && a.pid in s.syncs && HoldsSync(s.db, a.pid, s.syncs[a.pid].lease)
    ensures OneJobChanges(s, SyncStep(s, a), s.syncs[a.pid].lease.jobId)
    ensures forall p | p in SyncStep(s, a).syncs :: p in s.syncs && SyncStep(s, a).syncs[p].lease == s.syncs[p].lease
  {
  }

  /** A worker's own step changes at most its job and drops or keeps its lease. */
  lemma WorkFrame(s: State, a: Action)
    requires IsSync(a) && !a.ClaimSync? && !a.RetrySync? && a.pid in s.syncs
    requires HoldsSync(s.db, a.pid, s.syncs[a.pid].lease)
    ensures OneJobChanges(s, SyncStep(s, a), s.syncs[a.pid].lease.jobId)
    ensures forall p | p in SyncStep(s, a).syncs :: p in s.syncs && SyncStep(s, a).syncs[p].lease == s.syncs[p].lease
  {
    if a.MarkSync? || a.ReportSync? { EndingFrame(s, a); } else { TouchlessFrame(s, a); }
  }

  /** A worker's own step keeps everyone's lease, or drops its own. */
  lemma WorkLeases(s: State, a: Action)
    requires Leases(s) && IsSync(a) && !a.ClaimSync? && !a.RetrySync? && a.pid in s.syncs
    ensures Leases(SyncStep(s, a))
  {
    assert HoldsSync(s.db, a.pid, s.syncs[a.pid].lease);
    WorkFrame(s, a);
    var t := SyncStep(s, a);
    forall p | p in t.syncs ensures HoldsSync(t.db, p, t.syncs[p].lease) {
      assert HoldsSync(s.db, p, s.syncs[p].lease);
      assert p == a.pid ==> t.db == s.db;
    }
  }

  lemma ClaimOrRetryLeases(s: State, a: Action)
    requires Leases(s) && (a.ClaimSync? || a.RetrySync?)
    ensures Leases(SyncStep(s, a))
  {
    var t := SyncStep(s, a);
    forall p | p in t.syncs ensures HoldsSync(t.db, p, t.syncs[p].lease) {
      if p in s.syncs { assert HoldsSync(s.db, p, s.syncs[p].lease); }
    }
  }

  lemma ClaimOrRetryOrdered(s: State, a: Action)
    requires Ordered(s) && InOrder(s, a) && (a.ClaimSync? || a.RetrySync?)
    ensures Ordered(SyncStep(s, a))
  {
    ClaimOrRetryLeases(s, a);
    if SyncStep(s, a) != s { JobChangeOrdered(s, SyncStep(s, a), a.jobId); }
  }

  lemma WorkOrdered(s: State, a: Action)
    requires Ordered(s) && IsSync(a) && !a.ClaimSync? && !a.RetrySync?
    ensures Ordered(SyncStep(s, a))
  {
    if a.pid in s.syncs {
      WorkLeases(s, a);
      WorkFrame(s, a);
      assert EarlierDone(s.db, s.syncs[a.pid].lease.jobId);
      JobChangeOrdered(s, SyncStep(s, a), s.syncs[a.pid].lease.jobId);
    } else {
      assert SyncStep(s, a) == s.(syncs := SyncStep(s, a).syncs) && SyncStep(s, a).syncs == s.syncs;
    }
  }

  lemma SyncOrdered(s: State, a: Action)
    requires Ordered(s) && IsSync(a) && InOrder(s, a)
    ensures Ordered(SyncStep(s, a))
  {
    if a.ClaimSync? || a.RetrySync? { ClaimOrRetryOrdered(s, a); } else { WorkOrdered(s, a); }
  }

  lemma OtherStepOrdered(s: State, a: Action)
    requires Inv(s) && Ordered(s) && !IsSync(a)
    ensures Ordered(Apply(s, a))
  {
    OtherStepFrame(s, a);
    StepMoves(s, a);
    AnnouncementOrdered(s, Apply(s, a));
  }

  lemma SyncApplyOrdered(s: State, a: Action)
    requires Ordered(s) && IsSync(a) && InOrder(s, a)
    ensures Ordered(Apply(s, a))
  {
    SyncOrdered(s, a);
  }

  lemma StartIsOrdered()
    ensures Ordered(START)
  {
  }

  lemma {:induction false} OrderedRuns(actions: seq<Action>)
    requires AllInOrder(actions)
    ensures Ordered(Run(START, actions)) && AllSafe(SameDocument, START, actions)
    decreases |actions|
  {
    if |actions| == 0 {
      StartIsOrdered();
    } else {
      var before, a := actions[..|actions| - 1], actions[|actions| - 1];
      OrderedRuns(before);
      RunKeeps(before);
      InOrderIsSafe(Run(START, before), a);
      if IsSync(a) { SyncApplyOrdered(Run(START, before), a); } else { OtherStepOrdered(Run(START, before), a); }
    }
  }

  /** The index has the item exactly if it is published and public, and then with the item's own text. */
  predicate Mirrored(s: State, c: ItemId) {
    if c in s.db.items && s.db.items[c].status == Published && s.db.items[c].visibility == Public
    then c in s.index && s.index[c] == s.db.items[c].meta
    else c !in s.index
  }

  /** Once every job has succeeded, safe claims have left exactly the visible items in the index, with their text. */
  lemma {:induction false} SafeClaimsConverge(actions: seq<Action>)
    requires AllSafe(SameDocument, START, actions)
    requires forall k | 0 <= k < |Run(START, actions).db.search| :: Run(START, actions).db.search[k].status == Succeeded
    ensures forall c :: Mirrored(Run(START, actions), c)
  {
    SafeRunsMeetTheirAim(SameDocument, actions);
    RunKeeps(actions);
    var s := Run(START, actions);
    forall c ensures Mirrored(s, c) {
      assert !HasOpenJob(s.db, c);
      assert Fits(SameDocument, Indexed(s.index, c), DocOf(s.db, c));
      if c in s.db.items { TwoFieldTestIsVisibility(s.db, c); }
    }
  }

  /** In particular when no job overtakes an earlier one of its item. */
  lemma {:induction false} IndexConverges(actions: seq<Action>)
    requires AllInOrder(actions)
    requires forall k | 0 <= k < |Run(START, actions).db.search| :: Run(START, actions).db.search[k].status == Succeeded
    ensures forall c :: Mirrored(Run(START, actions), c)
  {
    OrderedRuns(actions);
    SafeClaimsConverge(actions);
  }

  // ----- The two ways to go wrong ------------------------------------------------------

  /** Claim a job, read its document, write the index, mark the job: one step each. */
  lemma ClaimStep(s: State, m: State, p: WorkerId, k: JobId, now: Time) returns (t: State)
    requires Reaches(false, s, m)
    requires p !in m.syncs && k < |m.db.search| && Claimable(m.db.search[k], SearchQueue, now)
    ensures Reaches(false, s, t)
    ensures var job := Jobs.Claimed(m.db.search[k], p);
      t == m.(db := m.db.(search := m.db.search[k := job]), syncs := m.syncs[p := SyncLeased(LeaseOf(k, job))])
  {
    t := Apply(m, ClaimSync(p, k, now));
    ReachesStep(false, s, m, ClaimSync(p, k, now));
  }

  lemma RefreshStep(s: State, m: State, c: ItemId) returns (t: State)
    requires Reaches(false, s, m) && c in m.db.items
    ensures Reaches(false, s, t) && t == m.(db := m.db.(search := m.db.search + [NewSearch(c, Upsert)]))
  {
    t := Apply(m, Refresh(c));
    ReachesStep(false, s, m, Refresh(c));
  }

  lemma HideStep(s: State, m: State, c: ItemId, now: Time) returns (t: State)
    requires Reaches(false, s, m) && Visible(m.db, c)
    ensures Reaches(false, s, t) && t.syncs == m.syncs && t.index == m.index
    ensures t.db.search == m.db.search + [NewSearch(c, Delete)] && !Visible(t.db, c)
    ensures t.db.files == m.db.files && t.db.items == m.db.items[c := Reviewed(m.db.items[c], Hide, now)]
  {
    t := m.(db := ReviewContent(m.db, c, Hide, now).value);
    assert t == Apply(m, ReviewItem(c, Hide, now));
    ReachesStep(false, s, m, ReviewItem(c, Hide, now));
  }

  lemma RestoreStep(s: State, m: State, c: ItemId, now: Time) returns (t: State)
    requires Reaches(false, s, m) && ReviewContent(m.db, c, Restore, now).Some?
    requires m.db.items[c].visibility == Public
    ensures Reaches(false, s, t) && t.syncs == m.syncs && t.index == m.index
    ensures t.db.search == m.db.search + [NewSearch(c, Upsert)] && Visible(t.db, c)
  {
    t := Apply(m, ReviewItem(c, Restore, now));
    ReachesStep(false, s, m, ReviewItem(c, Restore, now));
  }

  /** A worker has read that the item is visible, and then the item is hidden. */
  lemma ReadBeforeHide(s: State, c: ItemId, p: WorkerId, now: Time) returns (t: State)
    requires Visible(s.db, c) && p !in s.syncs
    ensures Reaches(false, s, t) && !Visible(t.db, c)
    ensures var job := Jobs.Claimed(NewSearch(c, Upsert), p);
      && t.db.search == s.db.search + [job, NewSearch(c, Delete)]
      && t.syncs == s.syncs[p := SyncRead(LeaseOf(|s.db.search|, job), DocOf(s.db, c))]
  {
    ReachesItself(false, s);
    var s1 := RefreshStep(s, s, c);
    var s2 := ClaimStep(s, s1, p, |s.db.search|, now);
    var s3 := ReadStep(false, s, s2, p);
    t := HideStep(s, s3, c, now);
  }

  /**
    Two workers on one item: from any state where the public sees an item, a worker that
    read the document before it was hidden can write it back after the delete job is done.
    Both jobs have succeeded, no earlier job has changed, and the hidden item stays in the
    index.
   */
  lemma OverlapLeavesOrphan(s: State, c: ItemId, p: WorkerId, q: WorkerId, now: Time) returns (t: State)
    requires Visible(s.db, c) && p !in s.syncs && q !in s.syncs && p != q
    ensures Reaches(false, s, t) && c in t.index && !Visible(t.db, c)
    ensures var k := |s.db.search|;
      && |t.db.search| == k + 2 && t.db.search[..k] == s.db.search
      && !Open(t.db.search[k]) && !Open(t.db.search[k + 1])
  {
    var k := |s.db.search|;
    var s4 := ReadBeforeHide(s, c, p, now);
    var s5 := ClaimStep(s, s4, q, k + 1, now);
    var s6 := ReadStep(false, s, s5, q);
    var s7 := WriteStep(false, s, s6, q);
    var s8 := MarkStep(false, s, s7, q);
    var s9 := WriteStep(false, s, s8, p);
    t := MarkStep(false, s, s9, p);
  }

  /** An item is hidden and restored: a delete job and then an upsert job for it. */
  lemma HideAndRestore(s: State, c: ItemId, now: Time) returns (t: State)
    requires DbInv(s.db) && Visible(s.db, c)
    ensures Reaches(false, s, t) && t.syncs == s.syncs && Visible(t.db, c)
    ensures t.db.search == s.db.search + [NewSearch(c, Delete), NewSearch(c, Upsert)]
  {
    assert Coherent(s.db.items[c], s.db.files[s.db.items[c].fileId].scan);
    ReachesItself(false, s);
    var hidden := HideStep(s, s, c, now);
    t := RestoreStep(s, hidden, c, now);
  }

  /**
    Out of order: a delete job that runs after a later upsert removes an item that the
    public sees, with one worker at a time and every job succeeded.
   */
  lemma OvertakingLosesItem(s: State, c: ItemId, p: WorkerId, now: Time) returns (t: State)
    requires DbInv(s.db) && Visible(s.db, c) && p !in s.syncs
    ensures Reaches(false, s, t) && c !in t.index && Visible(t.db, c)
    ensures var k := |s.db.search|;
      && |t.db.search| == k + 2 && t.db.search[..k] == s.db.search
      && !Open(t.db.search[k]) && !Open(t.db.search[k + 1])
  {
    var k := |s.db.search|;
    var s2 := HideAndRestore(s, c, now);
    var s3 := ClaimStep(s, s2, p, k + 1, now);
    var s4 := ReadStep(false, s, s3, p);
    var s5 := WriteStep(false, s, s4, p);
    var s6 := MarkStep(false, s, s5, p);
    var s7 := ClaimStep(s, s6, p, k, now);
    var s8 := ReadStep(false, s, s7, p);
    var s9 := WriteStep(false, s, s8, p);
    t := MarkStep(false, s, s9, p);
  }
}
