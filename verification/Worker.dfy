/**
  The scan worker and the three publishers as sequential code over the store and the buckets.

  Run without interruption, each is a run of the step machine in Protocol; there, other
  processes may act between any two of its steps.
 */
module Worker {
  import opened Wrappers
  import opened Jobs
  import opened Publication
  import opened ContentStore
  import opened Protocol
  import opened ScanVerdicts

  /** What the environment does to one pass: reads and copies may fail, commits may be lost. */
  datatype Env = Env(loaded: bool, outcome: Outcome, written: bool, copied: bool,
                     commit: bool, removed: bool, reported: bool, now: Time)

  /** The action is the worker's own, with the choices that this pass's environment makes. */
  predicate OfPass(pid: WorkerId, env: Env, a: Action) {
    match a
    case ClaimScan(p, _, now) => p == pid && now == env.now
    case LoadFile(p, ok) => p == pid && ok == env.loaded
    case Inspect(p, outcome) => p == pid && outcome == env.outcome
    case CloseScan(p, commit) => p == pid && commit == env.commit
    case CopyOut(p, written, ok) => p == pid && written == env.written && ok == env.copied
    case Publish(p, now, commit) => p == pid && now == env.now && commit == env.commit
    case Undo(p, removed) => p == pid && removed == env.removed
    case Sweep(p, removed) => p == pid && removed == env.removed
    case Report(p, now, commit) => p == pid && now == env.now && commit == env.reported
    case _ => false
  }

  /** The steps of one promotion: the copy; if that is ready, the transaction; after a real copy, one removal. */
  function PromotionSteps(pid: WorkerId, env: Env, ready: bool, promoted: bool, ok: bool): seq<Action> {
    [CopyOut(pid, env.written, env.copied)] +
    (if !ready then []
     else [Publish(pid, env.now, env.commit)] +
          (if !promoted then [] else [if ok then Sweep(pid, env.removed) else Undo(pid, env.removed)]))
  }

  /** A trace has grown by steps of this pass. */
  ghost predicate Grown(pid: WorkerId, env: Env, before: seq<Action>, after: seq<Action>) {
    before <= after && forall i | |before| <= i < |after| :: OfPass(pid, env, after[i])
  }

  lemma GrownTwice(pid: WorkerId, env: Env, before: seq<Action>, middle: seq<Action>, after: seq<Action>)
    requires Grown(pid, env, before, middle) && Grown(pid, env, middle, after)
    ensures Grown(pid, env, before, after)
  {
  }

  lemma GrownByPromotion(pid: WorkerId, env: Env, before: seq<Action>, ready: bool, promoted: bool, ok: bool)
    ensures Grown(pid, env, before, before + PromotionSteps(pid, env, ready, promoted, ok))
  {
  }

  /** A publishing transaction gives its file the verdict clean, and no other file any. */
  lemma PublishedScans(db: Db, intent: Intent, row: Row, target: Location, now: Time)
    requires PublishTx(db, intent, row, target, now).Some?
    ensures var after := PublishTx(db, intent, row, target, now).value;
      forall f | f in db.files && f in after.files && after.files[f].scan != db.files[f].scan ::
        f == row.fileId && after.files[f].scan == Clean
  {
  }

  lemma {:induction false} RunAppend(s: State, trace: seq<Action>, a: Action)
    ensures Run(s, trace + [a]) == Apply(Run(s, trace), a)
  {
    assert (trace + [a])[..|trace|] == trace;
  }

  /** The publication step, part by part. */
  lemma PublishParts(s: State, pid: WorkerId, now: Time, commit: bool)
    requires pid in s.procs && s.procs[pid].Ready?
    ensures var t := Apply(s, Publish(pid, now, commit));
      var p := s.procs[pid];
      var tx := PublishTx(s.db, p.intent, p.row, p.target, now);
      && t.objects == s.objects && t.index == s.index
      && (if commit && tx.Some?
          then t.db == tx.value
               && t.procs == if p.copied then s.procs[pid := Sweeping(p.row.location)] else s.procs - {pid}
          else t.db == s.db && t.procs == if p.copied then s.procs[pid := Undoing(p.intent, p.target)]
                                          else Protocol.Failed(s, pid, p.intent).procs)
  {
  }

  class Platform {
    const store: Store
    var objects: map<Location, Bytes>
    ghost var keys: seq<KeyUse>
    ghost var procs: map<WorkerId, Proc>
    var index: map<ItemId, Meta>
    ghost var syncs: map<WorkerId, Sync>
    ghost var trace: seq<Action>

    ghost function Abstract(): State
      reads this, store
    {
      State(store.Rows(), objects, keys, procs, index, syncs)
    }

    constructor ()
      ensures fresh(store) && Abstract() == START && trace == []
    {
      store := new Store();
      objects, keys, procs, index, syncs, trace := map[], [], map[], map[], map[], [];
    }

    /** Records that the real fields have just taken step `a`; the rest of the state follows. */
    ghost method Take(s: State, a: Action)
      requires store.Rows() == Apply(s, a).db && objects == Apply(s, a).objects && index == Apply(s, a).index
      modifies `keys, `procs, `syncs, `trace
      ensures Abstract() == Apply(s, a)
      ensures trace == old(trace) + [a]
      ensures forall from | s == Run(from, old(trace)) :: Abstract() == Run(from, trace)
    {
      var t := Apply(s, a);
      keys, procs, syncs, trace := t.keys, t.procs, t.syncs, trace + [a];
      forall from | s == Run(from, old(trace)) ensures Abstract() == Run(from, trace) {
        RunAppend(from, old(trace), a);
      }
    }

    /** The copy of a quarantined object into the private bucket; any other object stays where it is. */
    method CopyFromQuarantine(pid: WorkerId, intent: Intent, row: Row, env: Env)
      returns (ok: bool, target: Location, promoted: bool)
      requires pid in procs && procs[pid] == Promoting(intent, row)
      modifies this
      ensures forall from | old(Abstract()) == Run(from, old(trace)) :: Abstract() == Run(from, trace)
      ensures trace == old(trace) + [CopyOut(pid, env.written, env.copied)]
      ensures ok <==> row.location.bucket != QuarantineBucket
                      || (row.location in old(objects) && env.written && env.copied)
      ensures promoted <==> ok && row.location.bucket == QuarantineBucket
      ensures target == if row.location.bucket == QuarantineBucket
                        then Location(PrivateBucket, ContentKey(row.contentId, row.fileId)) else row.location
      ensures ok ==> procs == old(procs)[pid := Ready(intent, row, target, promoted)]
      ensures !ok ==> procs == Protocol.Failed(old(Abstract()), pid, intent).procs
    {
      ghost var s := Abstract();
      ok, target, promoted := true, row.location, false;
      if row.location.bucket == QuarantineBucket {
        target := Promoted(row.contentId, row.fileId);
        ok := row.location in objects && env.written && env.copied;
        if row.location in objects && env.written { objects := objects[target := objects[row.location]]; }
        promoted := ok;
      }
      Take(s, CopyOut(pid, env.written, env.copied));
    }

    /** The publishing transaction of each of the three callers. */
    method RunTransaction(pid: WorkerId, intent: Intent, row: Row, target: Location, promoted: bool, env: Env)
      returns (ok: bool)
      requires pid in procs && procs[pid] == Ready(intent, row, target, promoted)
      modifies this, store
      ensures forall from | old(Abstract()) == Run(from, old(trace)) :: Abstract() == Run(from, trace)
      ensures trace == old(trace) + [Publish(pid, env.now, env.commit)]
      ensures var tx := PublishTx(old(store.Rows()), intent, row, target, env.now);
        ok == (env.commit && tx.Some?) && store.Rows() == if ok then tx.value else old(store.Rows())
      ensures promoted ==> procs == old(procs)[pid := if ok then Sweeping(row.location) else Undoing(intent, target)]
      ensures !promoted ==>
        procs == if ok then old(procs) - {pid} else Protocol.Failed(old(Abstract()), pid, intent).procs
    {
      ghost var s := Abstract();
      ok := false;
      if env.commit {
        match intent
        case ByScan(lease) =>
          ok := store.CompleteFileScanAndPublish(lease.jobId, row.fileId, row.contentId, Clean, target, env.now);
        case ByReconcile => ok := store.PublishCleanContent(row.fileId, row.contentId, target, env.now);
        case ByAdmin => ok := store.Approve(row.fileId, row.contentId, target, env.now);
      }
      PublishParts(s, pid, env.now, env.commit);
      Take(s, Publish(pid, env.now, env.commit));
    }

    /** After a copy, one of the two objects goes: the original if the row moved, else the copy. */
    method RemoveLeftover(pid: WorkerId, intent: Intent, row: Row, target: Location, ok: bool, env: Env)
      requires pid in procs && procs[pid] == if ok then Sweeping(row.location) else Undoing(intent, target)
      modifies this
      ensures forall from | old(Abstract()) == Run(from, old(trace)) :: Abstract() == Run(from, trace)
      ensures trace == old(trace) + [if ok then Sweep(pid, env.removed) else Undo(pid, env.removed)]
      ensures objects == if env.removed then old(objects) - {if ok then row.location else target} else old(objects)
      ensures procs == if ok then old(procs) - {pid} else Protocol.Failed(old(Abstract()), pid, intent).procs
    {
      ghost var s := Abstract();
      if env.removed { objects := objects - {if ok then row.location else target}; }
      if ok { Take(s, Sweep(pid, env.removed)); } else { Take(s, Undo(pid, env.removed)); }
    }

    /**
      What a scan, publishCleanCandidate and the Approve handler share: copy out of quarantine,
      run the transaction, then remove the copy or the original.
     */
    method Promote(pid: WorkerId, intent: Intent, row: Row, env: Env) returns (err: bool)
      requires pid in procs && procs[pid] == Promoting(intent, row)
      modifies this, store
      ensures forall from | old(Abstract()) == Run(from, old(trace)) :: Abstract() == Run(from, trace)
      ensures var ready := row.location.bucket != QuarantineBucket
                           || (row.location in old(objects) && env.written && env.copied);
        && trace == old(trace) + PromotionSteps(pid, env, ready, ready && row.location.bucket == QuarantineBucket, !err)
        && (!err ==> ready && env.commit)
      ensures err ==> store.Rows() == old(store.Rows())
      ensures forall f | f in old(store.files) && f in store.files && store.files[f].scan != old(store.files)[f].scan ::
        !err && f == row.fileId && store.files[f].scan == Clean
      ensures procs == if err && intent.ByScan? then old(procs)[pid := Reporting(intent.lease)]
                       else old(procs) - {pid}
    {
      ghost var db := store.Rows();
      var ready, target, promoted := CopyFromQuarantine(pid, intent, row, env);
      if !ready { return true; }
      var ok := RunTransaction(pid, intent, row, target, promoted, env);
      if promoted { RemoveLeftover(pid, intent, row, target, ok, env); }
      err := !ok;
      assert trace == old(trace) + PromotionSteps(pid, env, ready, promoted, ok);
      if ok { PublishedScans(db, intent, row, target, env.now); }
    }

    /** autoPublishCleanFile: the promotion of a file that the scan has just found clean. */
    method AutoPublishCleanFile(pid: WorkerId, lease: ScanLease, row: Row, env: Env) returns (err: bool)
      requires pid in procs && procs[pid] == Promoting(ByScan(lease), row)
      modifies this, store
      ensures forall from | old(Abstract()) == Run(from, old(trace)) :: Abstract() == Run(from, trace)
      ensures Grown(pid, env, old(trace), trace)
      ensures procs == if err then old(procs)[pid := Reporting(lease)] else old(procs) - {pid}
      ensures forall f | f in old(store.files) && f in store.files && store.files[f].scan != old(store.files)[f].scan ::
        !err && f == row.fileId && store.files[f].scan == Clean
    {
      ghost var ready := row.location.bucket != QuarantineBucket
                         || (row.location in objects && env.written && env.copied);
      err := Promote(pid, ByScan(lease), row, env);
      GrownByPromotion(pid, env, old(trace), ready, ready && row.location.bucket == QuarantineBucket, !err);
    }

    /** GetContentFileForScan and the comparison of the row with the job's payload. */
    method LoadForScan(pid: WorkerId, lease: ScanLease, env: Env) returns (row: Option<Row>, mismatch: bool)
      requires pid in procs && procs[pid] == Leased(lease)
      modifies this
      ensures forall from | old(Abstract()) == Run(from, old(trace)) :: Abstract() == Run(from, trace)
      ensures Grown(pid, env, old(trace), trace)
      ensures trace == old(trace) + [LoadFile(pid, env.loaded)] && objects == old(objects)
      ensures var f := lease.payload.fileId;
        var found := env.loaded && f in store.files;
        && (mismatch <==> found && !(store.files[f].contentId == lease.payload.contentId
                                     && store.files[f].location == lease.payload.location))
        && (row.Some? <==> found && !mismatch)
        && (row.Some? ==> row.value == Row(f, lease.payload.contentId, lease.payload.location,
                                           store.files[f].hash, store.files[f].scan))
      ensures procs == old(procs)[pid :=
        if mismatch then Closing(lease, Suspicious)
        else match row case Some(r) => Loaded(lease, r) case None => Reporting(lease)]
    {
      ghost var s := Abstract();
      var fileId := lease.payload.fileId;
      row, mismatch := None, false;
      if env.loaded && fileId in store.files {
        var file := store.files[fileId];
        if PayloadMatches(lease.payload, file) {
          row := Some(Row(fileId, file.contentId, file.location, file.hash, file.scan));
        } else {
          mismatch := true;
        }
      }
      Take(s, LoadFile(pid, env.loaded));
    }

    /** Hash, antivirus and package checks; None is an error on the way, the verdict else. */
    method InspectObject(pid: WorkerId, lease: ScanLease, row: Row, env: Env) returns (verdict: Option<ScanStatus>)
      requires pid in procs && procs[pid] == Loaded(lease, row)
      modifies this
      ensures forall from | old(Abstract()) == Run(from, old(trace)) :: Abstract() == Run(from, trace)
      ensures Grown(pid, env, old(trace), trace)
      ensures trace == old(trace) + [Inspect(pid, env.outcome)] && objects == old(objects)
      ensures verdict.None? <==> env.outcome.Unreadable? || row.location !in objects
      ensures verdict.Some? ==>
        if objects[row.location] != row.hash then verdict.value == Suspicious
        else Cause(verdict.value) == Some(env.outcome)
      ensures procs == old(procs)[pid :=
        match verdict
        case None => Reporting(lease)
        case Some(v) => if v == Clean then Promoting(ByScan(lease), row) else Closing(lease, v)]
    {
      ghost var s := Abstract();
      if env.outcome.Unreadable? || row.location !in objects { verdict := None; }
      else if objects[row.location] != row.hash { verdict := Some(Suspicious); }
      else if env.outcome.FoundInfected? { verdict := Some(Infected); }
      else if env.outcome.FoundMalformed? { verdict := Some(Suspicious); }
      else if env.outcome.AntivirusSkipped? { verdict := Some(ScanErrored); }
      else { verdict := Some(Clean); }
      Take(s, Inspect(pid, env.outcome));
    }

    /** processFileScan after the claim. */
    method ProcessFileScan(pid: WorkerId, lease: ScanLease, env: Env) returns (err: bool)
      requires pid in procs && procs[pid] == Leased(lease)
      modifies this, store
      ensures forall from | old(Abstract()) == Run(from, old(trace)) :: Abstract() == Run(from, trace)
      ensures Grown(pid, env, old(trace), trace) && old(trace) + [LoadFile(pid, env.loaded)] <= trace
      ensures forall f | f in old(store.files) && f in store.files && store.files[f].scan != old(store.files)[f].scan ::
        && f == lease.payload.fileId
        && (store.files[f].scan == Clean ==> env.outcome.FoundClean?)
        && (store.files[f].scan == Infected ==> env.outcome.FoundInfected?)
        && (store.files[f].scan == ScanErrored ==> env.outcome.AntivirusSkipped?)
        && store.files[f].scan != AwaitingScan
      ensures procs == if err then old(procs)[pid := Reporting(lease)] else old(procs) - {pid}
    {
      var row, mismatch := LoadForScan(pid, lease, env);
      ghost var loaded := trace;
      if mismatch {
        err := Close(pid, lease, Suspicious, env);
        GrownTwice(pid, env, old(trace), loaded, trace);
        return;
      }
      if row.None? { return true; }
      var verdict := InspectObject(pid, lease, row.value, env);
      GrownTwice(pid, env, old(trace), loaded, trace);
      if verdict.None? { return true; }
      ghost var inspected := trace;
      if verdict.value == Clean {
        err := AutoPublishCleanFile(pid, lease, row.value, env);
      } else {
        err := Close(pid, lease, verdict.value, env);
      }
      GrownTwice(pid, env, old(trace), inspected, trace);
    }

    /** A scan that ends with any verdict but clean. */
    method Close(pid: WorkerId, lease: ScanLease, verdict: ScanStatus, env: Env) returns (err: bool)
      requires pid in procs && procs[pid] == Closing(lease, verdict)
      modifies this, store
      ensures forall from | old(Abstract()) == Run(from, old(trace)) :: Abstract() == Run(from, trace)
      ensures Grown(pid, env, old(trace), trace)
      ensures trace == old(trace) + [CloseScan(pid, env.commit)]
      ensures var tx := CompleteFileScan(old(store.Rows()), lease.jobId, lease.payload.fileId, lease.payload.contentId,
                                         verdict, ScanFailed);
        err == !(env.commit && tx.Some?) && store.Rows() == if err then old(store.Rows()) else tx.value
      ensures forall f | f in old(store.files) && f in store.files && store.files[f].scan != old(store.files)[f].scan ::
        f == lease.payload.fileId && store.files[f].scan == verdict
      ensures procs == if err then old(procs)[pid := Reporting(lease)] else old(procs) - {pid}
    {
      ghost var s := Abstract();
      var ok := false;
      if env.commit {
        ok := store.CompleteFileScan(lease.jobId, lease.payload.fileId, lease.payload.contentId, verdict, ScanFailed);
      }
      Take(s, CloseScan(pid, env.commit));
      err := !ok;
    }

    method ClaimScanJob(pid: WorkerId, jobId: JobId, now: Time) returns (lease: Option<ScanLease>)
      requires pid !in procs
      modifies this, store
      ensures forall from | old(Abstract()) == Run(from, old(trace)) :: Abstract() == Run(from, trace)
      ensures trace == old(trace) + (if lease.Some? then [ClaimScan(pid, jobId, now)] else [])
      ensures lease.Some? <==>
        && jobId in old(store.scans)
        && var job := old(store.scans)[jobId];
           && job.queue == FileScanQueue && job.status == Pending
           && (job.nextRetryAt.Some? ==> job.nextRetryAt.value <= now)
      ensures lease.Some? ==>
        var job := old(store.scans)[jobId]; lease.value == Lease(jobId, job.payload, job.attempts + 1, job.maxAttempts)
      ensures procs == match lease case Some(l) => old(procs)[pid := Leased(l)] case None => old(procs)
    {
      if jobId !in store.scans || !Claimable(store.scans[jobId], FileScanQueue, now) { return None; }
      ghost var s := Abstract();
      var row := store.scans[jobId];
      row := row.(status := Running, attempts := row.attempts + 1, lockedBy := Some(pid));
      store.scans := store.scans[jobId := row];
      Take(s, ClaimScan(pid, jobId, now));
      lease := Some(Lease(jobId, row.payload, row.attempts, row.maxAttempts));
    }

    method ReportFailure(pid: WorkerId, lease: ScanLease, env: Env)
      requires pid in procs && procs[pid] == Reporting(lease)
      modifies this, store
      ensures forall from | old(Abstract()) == Run(from, old(trace)) :: Abstract() == Run(from, trace)
      ensures Grown(pid, env, old(trace), trace)
      ensures trace == old(trace) + [Report(pid, env.now, env.reported)]
      ensures procs == old(procs) - {pid}
    {
      ghost var s := Abstract();
      if env.reported && lease.jobId in store.scans {
        var row := store.scans[lease.jobId];
        store.scans := store.scans[lease.jobId := MarkedFailed(row, lease.attempts, lease.maxAttempts, env.now)];
      }
      Take(s, Report(pid, env.now, env.reported));
    }

    /** One pass over the file-scan queue: process the claimed job and, on an error, mark it failed. */
    method ScanOnce(pid: WorkerId, jobId: JobId, env: Env)
      requires pid !in procs
      modifies this, store
      ensures forall from | old(Abstract()) == Run(from, old(trace)) :: Abstract() == Run(from, trace)
      ensures Grown(pid, env, old(trace), trace)
      ensures trace == old(trace) || old(trace) + [ClaimScan(pid, jobId, env.now), LoadFile(pid, env.loaded)] <= trace
      ensures procs == old(procs)
    {
      var lease := ClaimScanJob(pid, jobId, env.now);
      if lease.None? { return; }
      ghost var claimed := trace;
      var err := ProcessFileScan(pid, lease.value, env);
      GrownTwice(pid, env, old(trace), claimed, trace);
      ghost var processed := trace;
      if err {
        ReportFailure(pid, lease.value, env);
        GrownTwice(pid, env, old(trace), processed, trace);
      }
    }

    /** GetContentSearchDocument, read only for an upsert. */
    method ReadDocument(pid: WorkerId, lease: SyncLease) returns (doc: Option<Meta>)
      requires pid in syncs && syncs[pid] == SyncLeased(lease)
      modifies this
      ensures forall from | old(Abstract()) == Run(from, old(trace)) :: Abstract() == Run(from, trace)
      ensures trace == old(trace) + [ReadSync(pid)]
      ensures syncs == old(syncs)[pid := SyncRead(lease, doc)]
    {
      ghost var s := Abstract();
      doc := None;
      if lease.payload.action == Upsert { doc := DocOf(store.Rows(), lease.payload.contentId); }
      Take(s, ReadSync(pid));
    }

    /** UpsertContent or DeleteContent; an error may hide a write that took effect. */
    method WriteDocument(pid: WorkerId, lease: SyncLease, doc: Option<Meta>, written: bool, acknowledged: bool)
      returns (err: bool)
      requires pid in syncs && syncs[pid] == SyncRead(lease, doc)
      modifies this
      ensures forall from | old(Abstract()) == Run(from, old(trace)) :: Abstract() == Run(from, trace)
      ensures trace == old(trace) + [WriteSync(pid, written, acknowledged)]
      ensures err <==> !written || !acknowledged
      ensures syncs == old(syncs)[pid := if err then SyncReporting(lease) else SyncWritten(lease)]
    {
      ghost var s := Abstract();
      var id := lease.payload.contentId;
      if written {
        if doc.Some? { index := index[id := doc.value]; } else { index := index - {id}; }
      }
      Take(s, WriteSync(pid, written, acknowledged));
      err := !written || !acknowledged;
    }

    /** processSearchIndex: the document is read, then written or removed; then the job is marked. */
    method SyncDocument(pid: WorkerId, lease: SyncLease, written: bool, acknowledged: bool, commit: bool)
      returns (err: bool)
      requires pid in syncs && syncs[pid] == SyncLeased(lease)
      modifies this, store
      ensures forall from | old(Abstract()) == Run(from, old(trace)) :: Abstract() == Run(from, trace)
      ensures trace == old(trace) + [ReadSync(pid), WriteSync(pid, written, acknowledged)]
                       + (if written && acknowledged then [MarkSync(pid, commit)] else [])
      ensures syncs == if err then old(syncs)[pid := SyncReporting(lease)] else old(syncs) - {pid}
    {
      var doc := ReadDocument(pid, lease);
      err := WriteDocument(pid, lease, doc, written, acknowledged);
      if err { return; }
      ghost var s := Abstract();
      err := !commit || lease.jobId >= |store.search|;
      if !err { store.search := store.search[lease.jobId := MarkedSucceeded(store.search[lease.jobId])]; }
      Take(s, MarkSync(pid, commit));
    }
  }
}
