/**
  Safety of the publication protocol over every run: each file row names a stored object
  that holds the uploaded bytes, so every published item can be downloaded and no cleanup
  ever removes an object that a row refers to.
 */
module ProtocolProofs {
  import opened Wrappers
  import opened Jobs
  import opened Publication
  import opened PublicationProofs
  import opened Protocol

  /** The process's lease is the running row it locked. */
  predicate Holds(db: Db, pid: WorkerId, lease: ScanLease) {
    && lease.jobId in db.scans
    && db.scans[lease.jobId].status == Running
    && db.scans[lease.jobId].lockedBy == Some(pid)
    && lease == LeaseOf(lease.jobId, db.scans[lease.jobId])
  }

  predicate Current(db: Db, row: Row) {
    row.fileId in db.files && row == RowOf(db, row.fileId)
  }

  /** A publisher holds the scan of a waiting file, or has read a file that was clean already. */
  predicate IntentOk(s: State, pid: WorkerId, intent: Intent, row: Row) {
    && Current(s.db, row)
    && match intent
       case ByScan(lease) => Holds(s.db, pid, lease) && lease.payload.fileId == row.fileId
       case _ => row.scan == Clean
  }

  predicate ProcOk(s: State, pid: WorkerId, proc: Proc) {
    match proc
    case Storing(upload, hash) =>
      && upload < |s.keys| && s.keys[upload] == InUpload(pid)
      && Quarantined(upload) in s.objects && s.objects[Quarantined(upload)] == hash
    case Dropping(upload) => upload < |s.keys| && s.keys[upload] == Retired
    case Leased(lease) => Holds(s.db, pid, lease)
    case Loaded(lease, row) => IntentOk(s, pid, ByScan(lease), row)
    case Closing(lease, verdict) => Holds(s.db, pid, lease) && verdict in {Suspicious, Infected, ScanErrored}
    case Promoting(intent, row) => IntentOk(s, pid, intent, row)
    case Ready(intent, row, target, copied) =>
      && IntentOk(s, pid, intent, row)
      && copied == intent.ByScan?
      && target == Promoted(row.contentId, row.fileId)
      && target in s.objects && s.objects[target] == row.hash
    case Undoing(intent, target) =>
      && intent.ByScan?
      && Holds(s.db, pid, intent.lease)
      && target == Promoted(intent.lease.payload.contentId, intent.lease.payload.fileId)
    case Sweeping(source) =>
      exists u {:trigger Quarantined(u)} :: 0 <= u < |s.keys| && source == Quarantined(u) && s.keys[u] == Retired
    case Reporting(lease) => Holds(s.db, pid, lease)
  }

  /** The row's object exists and holds the bytes whose hash the row records. */
  predicate Stored(s: State, f: FileId)
    requires f in s.db.files
  {
    && s.db.files[f].location in s.objects
    && s.objects[s.db.files[f].location] == s.db.files[f].hash
    && (s.db.files[f].scan != Clean ==>
          s.db.files[f].location.key.UploadKey?
          && s.db.files[f].location.key.upload < |s.keys|
          && s.keys[s.db.files[f].location.key.upload] == InRow(f))
  }

  ghost predicate Inv(s: State) {
    && DbInv(s.db)
    && (forall f | f in s.db.files :: Stored(s, f))
    && (forall pid | pid in s.procs :: ProcOk(s, pid, s.procs[pid]))
  }

  /** The scan lease a process carries, if any. */
  function LeaseIn(proc: Proc): Option<ScanLease> {
    match proc
    case Leased(lease) => Some(lease)
    case Loaded(lease, _) => Some(lease)
    case Closing(lease, _) => Some(lease)
    case Reporting(lease) => Some(lease)
    case Promoting(ByScan(lease), _) => Some(lease)
    case Ready(ByScan(lease), _, _, _) => Some(lease)
    case Undoing(ByScan(lease), _) => Some(lease)
    case _ => None
  }

  /** The row a process has read, if any. */
  function RowIn(proc: Proc): Option<Row> {
    match proc
    case Loaded(_, row) => Some(row)
    case Promoting(_, row) => Some(row)
    case Ready(_, row, _, _) => Some(row)
    case _ => None
  }

  /** A lease holder's file awaits its scan in quarantine, and the payload is still its row. */
  lemma HeldFile(db: Db, pid: WorkerId, lease: ScanLease)
    requires DbInv(db) && Holds(db, pid, lease)
    ensures lease.payload.fileId in db.files
    ensures db.files[lease.payload.fileId].scan == AwaitingScan
    ensures PayloadMatches(lease.payload, db.files[lease.payload.fileId])
    ensures OpenScanOf(db, lease.jobId, lease.payload.fileId)
  {
    assert ScanRowOk(db, lease.jobId);
  }

  /** Two processes never hold leases on the same file. */
  lemma OneHolder(db: Db, p: WorkerId, q: WorkerId, mine: ScanLease, other: ScanLease)
    requires DbInv(db) && Holds(db, p, mine) && Holds(db, q, other) && p != q
    ensures mine.payload.fileId != other.payload.fileId && mine.jobId != other.jobId
  {
    HeldFile(db, p, mine);
    HeldFile(db, q, other);
  }

  /** What a good process says of the row it has read and of the lease it carries. */
  lemma ProcFacts(s: State, pid: WorkerId)
    requires DbInv(s.db) && pid in s.procs && ProcOk(s, pid, s.procs[pid])
    ensures LeaseIn(s.procs[pid]).Some? ==>
      var lease := LeaseIn(s.procs[pid]).value;
      && Holds(s.db, pid, lease)
      && lease.payload.fileId in s.db.files
      && s.db.files[lease.payload.fileId].scan == AwaitingScan
    ensures RowIn(s.procs[pid]).Some? ==>
      var row := RowIn(s.procs[pid]).value;
      && Current(s.db, row)
      && (if LeaseIn(s.procs[pid]).Some? then LeaseIn(s.procs[pid]).value.payload.fileId == row.fileId
          else row.scan == Clean)
  {
    if LeaseIn(s.procs[pid]).Some? { HeldFile(s.db, pid, LeaseIn(s.procs[pid]).value); }
  }

  /** One process's condition survives a step that leaves its job, its row, its keys and its object alone. */
  lemma ProcCarriesOver(s: State, t: State, q: WorkerId)
    requires DbInv(s.db) && q in s.procs && ProcOk(s, q, s.procs[q])
    requires LeaseIn(s.procs[q]).Some? ==>
      var j := LeaseIn(s.procs[q]).value.jobId;
      j in s.db.scans ==> j in t.db.scans && t.db.scans[j] == s.db.scans[j]
    requires RowIn(s.procs[q]).Some? ==>
      var f := RowIn(s.procs[q]).value.fileId;
      f in s.db.files ==> f in t.db.files && t.db.files[f] == s.db.files[f]
    requires |s.keys| <= |t.keys|
    requires forall u | 0 <= u < |s.keys| && !s.keys[u].InRow? && s.keys[u] != t.keys[u] ::
      s.keys[u].InUpload? && s.keys[u].pid != q
    requires s.procs[q].Storing? ==>
      var at := Quarantined(s.procs[q].upload);
      at in s.objects ==> at in t.objects && t.objects[at] == s.objects[at]
    requires s.procs[q].Ready? ==>
      var at := s.procs[q].target;
      at in s.objects ==> at in t.objects && t.objects[at] == s.objects[at]
    ensures ProcOk(t, q, s.procs[q])
  {
    match s.procs[q]
    case Sweeping(source) =>
      var u: nat :| u < |s.keys| && source == Quarantined(u) && s.keys[u] == Retired;
      assert t.keys[u] == Retired;
    case _ =>
  }

  // ----- Steps that change no row, no scan job and no object ---------------------------

  /** Everything the other processes and the rows depend on is as it was. */
  lemma QuietStep(s: State, t: State, pid: WorkerId)
    requires Inv(s) && DbInv(t.db)
    requires t.db.files == s.db.files && t.db.scans == s.db.scans && t.objects == s.objects && t.keys == s.keys
    requires forall q | q in t.procs && q != pid :: q in s.procs && t.procs[q] == s.procs[q]
    requires pid in t.procs ==> ProcOk(t, pid, t.procs[pid])
    ensures Inv(t)
  {
    forall q | q in t.procs && q != pid ensures ProcOk(t, q, t.procs[q]) { assert ProcOk(s, q, s.procs[q]); }
    forall f | f in t.db.files ensures Stored(t, f) { assert Stored(s, f); }
  }

  /** Reading the row and its object: the payload always matches and the bytes are the recorded ones. */
  lemma LoadFileKeeps(s: State, pid: WorkerId, ok: bool)
    requires Inv(s)
    ensures Inv(ScanStep(s, LoadFile(pid, ok)))
  {
    if pid in s.procs && s.procs[pid].Leased? {
      assert ProcOk(s, pid, s.procs[pid]);
      HeldFile(s.db, pid, s.procs[pid].lease);
      QuietStep(s, ScanStep(s, LoadFile(pid, ok)), pid);
    }
  }

  /** What an inspection can lead to, with the lease and the row that the worker has. */
  predicate AfterInspection(lease: ScanLease, row: Row, next: Proc) {
    || next == Reporting(lease)
    || next == Promoting(ByScan(lease), row)
    || (next.Closing? && next.lease == lease && next.verdict in {Suspicious, Infected, ScanErrored})
  }

  lemma InspectNext(s: State, pid: WorkerId, outcome: Outcome) returns (next: Proc)
    requires pid in s.procs && s.procs[pid].Loaded?
    ensures ScanStep(s, Inspect(pid, outcome)) == With(s, pid, next)
    ensures AfterInspection(s.procs[pid].lease, s.procs[pid].row, next)
  {
    next := ScanStep(s, Inspect(pid, outcome)).procs[pid];
  }

  lemma InspectedKeeps(s: State, pid: WorkerId, next: Proc)
    requires Inv(s) && pid in s.procs && s.procs[pid].Loaded?
    requires AfterInspection(s.procs[pid].lease, s.procs[pid].row, next)
    ensures Inv(With(s, pid, next))
  {
    assert ProcOk(s, pid, s.procs[pid]);
    QuietStep(s, With(s, pid, next), pid);
  }

  lemma InspectKeeps(s: State, pid: WorkerId, outcome: Outcome)
    requires Inv(s)
    ensures Inv(ScanStep(s, Inspect(pid, outcome)))
  {
    if pid in s.procs && s.procs[pid].Loaded? {
      var next := InspectNext(s, pid, outcome);
      InspectedKeeps(s, pid, next);
    }
  }

  /** A publisher starts with the current row of a clean file. */
  lemma StartPublisherKeeps(s: State, pid: WorkerId, intent: Intent, row: Row)
    requires Inv(s) && pid !in s.procs && !intent.ByScan? && Current(s.db, row) && row.scan == Clean
    ensures Inv(With(s, pid, Promoting(intent, row)))
  {
    QuietStep(s, With(s, pid, Promoting(intent, row)), pid);
  }

  lemma LoadForPublishKeeps(s: State, a: Action)
    requires Inv(s) && (a.LoadCandidate? || a.LoadApproval?)
    ensures Inv(PromotionStep(s, a))
  {
    if PromotionStep(s, a) != s {
      var row := RowOf(s.db, s.db.items[a.contentId].fileId);
      StartPublisherKeeps(s, a.pid, if a.LoadCandidate? then ByReconcile else ByAdmin, row);
    }
  }

  lemma CrashKeeps(s: State, pid: WorkerId)
    requires Inv(s)
    ensures Inv(Done(s, pid))
  {
    QuietStep(s, Done(s, pid), pid);
  }

  /** Transactions on an item's own columns and on the search queue. */
  lemma TablesOnly(s: State, db: Db)
    requires Inv(s) && DbInv(db) && db.files == s.db.files && db.scans == s.db.scans
    ensures Inv(s.(db := db))
  {
    var t := s.(db := db);
    forall q | q in t.procs ensures ProcOk(t, q, t.procs[q]) { assert ProcOk(s, q, s.procs[q]); }
    forall f | f in t.db.files ensures Stored(t, f) { assert Stored(s, f); }
  }

  lemma ReviewItemKeeps(s: State, c: ItemId, review: Review, now: Time)
    requires Inv(s)
    ensures Inv(Saved(s, ReviewContent(s.db, c, review, now)))
  {
    var tx := ReviewContent(s.db, c, review, now);
    if tx.Some? {
      ReviewKeeps(s.db, c, review, now);
      TablesOnly(s, tx.value);
    }
  }

  lemma UpdateItemKeeps(s: State, owner: UserId, c: ItemId, input: OwnerUpdate)
    requires Inv(s)
    ensures Inv(Saved(s, UpdateOwned(s.db, owner, c, input)))
  {
    var tx := UpdateOwned(s.db, owner, c, input);
    if tx.Some? {
      UpdateOwnedKeeps(s.db, owner, c, input);
      TablesOnly(s, tx.value);
    }
  }

  lemma DeleteItemKeeps(s: State, owner: UserId, c: ItemId, now: Time)
    requires Inv(s)
    ensures Inv(Saved(s, DeleteOwned(s.db, owner, c, now)))
  {
    var tx := DeleteOwned(s.db, owner, c, now);
    if tx.Some? {
      DeleteOwnedKeeps(s.db, owner, c, now);
      TablesOnly(s, tx.value);
    }
  }

  lemma RefreshKeeps(s: State, c: ItemId)
    requires Inv(s)
    ensures Inv(Saved(s, RefreshSearch(s.db, c)))
  {
    var tx := RefreshSearch(s.db, c);
    if tx.Some? {
      SearchChangeKeeps(s.db, tx.value.search);
      TablesOnly(s, tx.value);
    }
  }

  /** Search workers touch their own queue, the index and their own state. */
  lemma SyncFrame(s: State, a: Action)
    requires IsSync(a)
    ensures var t := SyncStep(s, a);
      t == s.(db := s.db.(search := t.db.search), index := t.index, syncs := t.syncs)
  {
  }

  lemma SyncKeeps(s: State, a: Action)
    requires Inv(s) && IsSync(a)
    ensures Inv(SyncStep(s, a))
  {
    SyncFrame(s, a);
    var t := SyncStep(s, a);
    var u := s.(db := s.db.(search := t.db.search));
    SearchChangeKeeps(s.db, t.db.search);
    TablesOnly(s, u.db);
    forall q | q in t.procs ensures ProcOk(t, q, t.procs[q]) { assert ProcOk(u, q, u.procs[q]); }
    forall f | f in t.db.files ensures Stored(t, f) { assert Stored(u, f); }
  }

  // ----- Uploads -----------------------------------------------------------------------

  lemma StoreObjectKeeps(s: State, pid: WorkerId, hash: Bytes)
    requires Inv(s)
    ensures Inv(UploadStep(s, StoreObject(pid, hash)))
  {
    if pid !in s.procs {
      var t := UploadStep(s, StoreObject(pid, hash));
      assert forall u | 0 <= u < |s.keys| :: t.keys[u] == s.keys[u];
      forall q | q in t.procs && q != pid ensures ProcOk(t, q, t.procs[q]) {
        assert ProcOk(s, q, s.procs[q]);
      }
      forall f | f in t.db.files ensures Stored(t, f) {
        assert Stored(s, f) && Placed(f, s.db.files[f]);
      }
    }
  }

  lemma FreshRowLeavesProc(s: State, t: State, pid: WorkerId, f: FileId, j: JobId, q: WorkerId)
    requires Inv(s) && pid in s.procs && s.procs[pid].Storing? && s.procs[pid].upload < |s.keys|
    requires s.keys[s.procs[pid].upload] == InUpload(pid)
    requires f !in s.db.files && f in t.db.files && t.db.files == s.db.files[f := t.db.files[f]]
    requires j !in s.db.scans && j in t.db.scans && t.db.scans == s.db.scans[j := t.db.scans[j]]
    requires t.keys == s.keys[s.procs[pid].upload := InRow(f)] && t.objects == s.objects
    requires q in s.procs && q != pid
    ensures ProcOk(t, q, s.procs[q])
  {
    assert ProcOk(s, q, s.procs[q]);
    ProcFacts(s, q);
    ProcCarriesOver(s, t, q);
  }

  /** A fresh row and a fresh job: nothing that other processes hold or have read changes. */
  lemma FreshRowKeeps(s: State, pid: WorkerId, db: Db, f: FileId, j: JobId)
    requires Inv(s) && DbInv(db) && pid in s.procs && s.procs[pid].Storing?
    requires f !in s.db.files && f in db.files && db.files == s.db.files[f := db.files[f]]
    requires j !in s.db.scans && j in db.scans && db.scans == s.db.scans[j := db.scans[j]]
    requires db.files[f].location == Quarantined(s.procs[pid].upload) && db.files[f].hash == s.procs[pid].hash
    ensures s.procs[pid].upload < |s.keys|
    ensures Inv(Done(s.(db := db, keys := s.keys[s.procs[pid].upload := InRow(f)]), pid))
  {
    assert ProcOk(s, pid, s.procs[pid]);
    var t := Done(s.(db := db, keys := s.keys[s.procs[pid].upload := InRow(f)]), pid);
    forall q | q in t.procs ensures ProcOk(t, q, t.procs[q]) { FreshRowLeavesProc(s, t, pid, f, j, q); }
    forall g | g in t.db.files ensures Stored(t, g) {
      if g in s.db.files { assert Stored(s, g); }
    }
  }

  lemma InsertUploadKeeps(s: State, pid: WorkerId, u: Upload, commit: bool)
    requires Inv(s)
    ensures Inv(UploadStep(s, InsertUpload(pid, u, commit)))
  {
    if pid in s.procs && s.procs[pid].Storing? {
      assert ProcOk(s, pid, s.procs[pid]);
      var proc := s.procs[pid];
      if Committed(CreateUpload(s.db, u, Quarantined(proc.upload), proc.hash), commit).Some? {
        CreateUploadKeeps(s.db, u, proc.upload, proc.hash);
        FreshRowKeeps(s, pid, CreateUpload(s.db, u, Quarantined(proc.upload), proc.hash).value, u.fileId, u.jobId);
      } else {
        var t := UploadStep(s, InsertUpload(pid, u, commit));
        forall q | q in t.procs && q != pid ensures ProcOk(t, q, t.procs[q]) { assert ProcOk(s, q, s.procs[q]); }
        forall f | f in t.db.files ensures Stored(t, f) { assert Stored(s, f); }
      }
    }
  }

  /** An object goes that no row names and that no other process has stored. */
  lemma RemovalKeeps(s: State, t: State, pid: WorkerId, location: Location)
    requires Inv(s)
    requires t.db == s.db && t.keys == s.keys && t.objects == s.objects - {location}
    requires forall q | q in t.procs && q != pid :: q in s.procs && t.procs[q] == s.procs[q]
    requires forall f | f in s.db.files :: s.db.files[f].location != location
    requires forall q | q in s.procs && q != pid && s.procs[q].Storing? :: Quarantined(s.procs[q].upload) != location
    requires forall q | q in s.procs && q != pid && s.procs[q].Ready? :: s.procs[q].target != location
    requires pid in t.procs ==> ProcOk(t, pid, t.procs[pid])
    ensures Inv(t)
  {
    forall q | q in t.procs && q != pid ensures ProcOk(t, q, t.procs[q]) { assert ProcOk(s, q, s.procs[q]); }
    forall f | f in t.db.files ensures Stored(t, f) { assert Stored(s, f); }
  }

  /** Quarantine objects go only when their key is retired. */
  lemma RetiredIsUnused(s: State, upload: nat)
    requires Inv(s) && upload < |s.keys| && s.keys[upload] == Retired
    ensures forall f | f in s.db.files :: s.db.files[f].location != Quarantined(upload)
    ensures forall q | q in s.procs && s.procs[q].Storing? :: s.procs[q].upload != upload
    ensures forall q | q in s.procs && s.procs[q].Ready? :: s.procs[q].target != Quarantined(upload)
  {
    forall f | f in s.db.files ensures s.db.files[f].location != Quarantined(upload) {
      assert Stored(s, f) && Placed(f, s.db.files[f]);
    }
    forall q | q in s.procs && s.procs[q].Storing? ensures s.procs[q].upload != upload {
      assert ProcOk(s, q, s.procs[q]);
    }
    forall q | q in s.procs && s.procs[q].Ready? ensures s.procs[q].target != Quarantined(upload) {
      assert ProcOk(s, q, s.procs[q]);
    }
  }

  lemma DropUploadKeeps(s: State, pid: WorkerId, removed: bool)
    requires Inv(s)
    ensures Inv(UploadStep(s, DropUpload(pid, removed)))
  {
    if pid in s.procs && s.procs[pid].Dropping? {
      assert ProcOk(s, pid, s.procs[pid]);
      var t := UploadStep(s, DropUpload(pid, removed));
      if removed {
        RetiredIsUnused(s, s.procs[pid].upload);
        RemovalKeeps(s, t, pid, Quarantined(s.procs[pid].upload));
      } else {
        QuietStep(s, t, pid);
      }
    }
  }

  lemma SweepKeeps(s: State, pid: WorkerId, removed: bool)
    requires Inv(s)
    ensures Inv(PromotionStep(s, Sweep(pid, removed)))
  {
    if pid in s.procs && s.procs[pid].Sweeping? {
      assert ProcOk(s, pid, s.procs[pid]);
      var t := PromotionStep(s, Sweep(pid, removed));
      if removed {
        var u: nat :| u < |s.keys| && s.procs[pid].source == Quarantined(u) && s.keys[u] == Retired;
        RetiredIsUnused(s, u);
        RemovalKeeps(s, t, pid, Quarantined(u));
      } else {
        QuietStep(s, t, pid);
      }
    }
  }

  /** The copy of a file that still awaits its scan serves no row and no other publisher. */
  lemma UndoneCopyIsUnused(s: State, pid: WorkerId, lease: ScanLease)
    requires Inv(s) && Holds(s.db, pid, lease)
    ensures var target := Promoted(lease.payload.contentId, lease.payload.fileId);
      && (forall f | f in s.db.files :: s.db.files[f].location != target)
      && (forall q | q in s.procs && q != pid && s.procs[q].Ready? :: s.procs[q].target != target)
  {
    HeldFile(s.db, pid, lease);
    var target := Promoted(lease.payload.contentId, lease.payload.fileId);
    forall f | f in s.db.files ensures s.db.files[f].location != target { assert Placed(f, s.db.files[f]); }
    forall q | q in s.procs && q != pid && s.procs[q].Ready? ensures s.procs[q].target != target {
      assert ProcOk(s, q, s.procs[q]);
      if s.procs[q].intent.ByScan? { OneHolder(s.db, pid, q, lease, s.procs[q].intent.lease); }
    }
  }

  lemma UndoNext(s: State, pid: WorkerId, removed: bool)
    requires pid in s.procs && s.procs[pid].Undoing? && s.procs[pid].intent.ByScan?
    ensures PromotionStep(s, Undo(pid, removed)) ==
      With(if removed then s.(objects := s.objects - {s.procs[pid].target}) else s,
           pid, Reporting(s.procs[pid].intent.lease))
  {
  }

  /** Undoing a copy: the file is still in quarantine and nobody else is promoting it. */
  lemma UndoKeeps(s: State, pid: WorkerId, removed: bool)
    requires Inv(s)
    ensures Inv(PromotionStep(s, Undo(pid, removed)))
  {
    if pid in s.procs && s.procs[pid].Undoing? {
      assert ProcOk(s, pid, s.procs[pid]);
      UndoNext(s, pid, removed);
      var t := PromotionStep(s, Undo(pid, removed));
      if removed {
        UndoneCopyIsUnused(s, pid, s.procs[pid].intent.lease);
        RemovalKeeps(s, t, pid, s.procs[pid].target);
      } else {
        QuietStep(s, t, pid);
      }
    }
  }

  // ----- Scan jobs ---------------------------------------------------------------------

  /** A scan job that no other process holds moves between open states. */
  lemma ScanTouchStep(s: State, t: State, pid: WorkerId, j: JobId, job: Job<ScanPayload>)
    requires Inv(s) && j in s.db.scans && SameScan(s.db.scans[j], job)
    requires forall q | q in s.procs && q != pid && LeaseIn(s.procs[q]).Some? :: LeaseIn(s.procs[q]).value.jobId != j
    requires t == s.(db := s.db.(scans := s.db.scans[j := job]), procs := t.procs)
    requires forall q | q in t.procs && q != pid :: q in s.procs && t.procs[q] == s.procs[q]
    requires pid in t.procs ==> ProcOk(t, pid, t.procs[pid])
    ensures Inv(t)
  {
    ScanTouchKeeps(s.db, j, job);
    forall q | q in t.procs && q != pid ensures ProcOk(t, q, t.procs[q]) { assert ProcOk(s, q, s.procs[q]); }
    forall f | f in t.db.files ensures Stored(t, f) { assert Stored(s, f); }
  }

  /** A job that is not running is in nobody's hands. */
  lemma IdleJob(s: State, j: JobId)
    requires Inv(s) && j in s.db.scans && s.db.scans[j].status != Running
    ensures forall q | q in s.procs && LeaseIn(s.procs[q]).Some? :: LeaseIn(s.procs[q]).value.jobId != j
  {
    forall q | q in s.procs && LeaseIn(s.procs[q]).Some? ensures LeaseIn(s.procs[q]).value.jobId != j {
      assert ProcOk(s, q, s.procs[q]);
      ProcFacts(s, q);
    }
  }

  lemma ClaimScanKeeps(s: State, pid: WorkerId, j: JobId, now: Time)
    requires Inv(s)
    ensures Inv(ScanStep(s, ClaimScan(pid, j, now)))
  {
    var t := ScanStep(s, ClaimScan(pid, j, now));
    if pid !in s.procs && j in s.db.scans && Claimable(s.db.scans[j], FileScanQueue, now) {
      IdleJob(s, j);
      ScanTouchStep(s, t, pid, j, Jobs.Claimed(s.db.scans[j], pid));
    }
  }

  /** A committed report hands the job back in its next state; a lost one changes no table. */
  lemma ReportNext(s: State, pid: WorkerId, now: Time, commit: bool)
    requires pid in s.procs && s.procs[pid].Reporting? && Holds(s.db, pid, s.procs[pid].lease)
    ensures var lease := s.procs[pid].lease;
      var job := MarkedFailed(s.db.scans[lease.jobId], lease.attempts, lease.maxAttempts, now);
      && SameScan(s.db.scans[lease.jobId], job)
      && ScanStep(s, Report(pid, now, commit)) ==
           if commit then Done(s.(db := s.db.(scans := s.db.scans[lease.jobId := job])), pid) else Done(s, pid)
  {
  }

  lemma ReportKeeps(s: State, pid: WorkerId, now: Time, commit: bool)
    requires Inv(s)
    ensures Inv(ScanStep(s, Report(pid, now, commit)))
  {
    if pid in s.procs && s.procs[pid].Reporting? {
      assert ProcOk(s, pid, s.procs[pid]);
      var t := ScanStep(s, Report(pid, now, commit));
      var lease := s.procs[pid].lease;
      ReportNext(s, pid, now, commit);
      if commit {
        OthersElsewhere(s, pid, lease);
        ScanTouchStep(s, t, pid, lease.jobId, t.db.scans[lease.jobId]);
      } else {
        CrashKeeps(s, pid);
      }
    }
  }

  lemma RetryScanKeeps(s: State, j: JobId, now: Time)
    requires Inv(s)
    ensures Inv(ScanStep(s, RetryScan(j, now)))
  {
    if j in s.db.scans && Retryable(s.db.scans[j]) {
      IdleJob(s, j);
      IdleTouchStep(s, j, Retried(s.db.scans[j], now));
    }
  }

  /** A scan job that nobody holds moves between open states. */
  lemma IdleTouchStep(s: State, j: JobId, job: Job<ScanPayload>)
    requires Inv(s) && j in s.db.scans && SameScan(s.db.scans[j], job)
    requires forall q | q in s.procs && LeaseIn(s.procs[q]).Some? :: LeaseIn(s.procs[q]).value.jobId != j
    ensures Inv(s.(db := s.db.(scans := s.db.scans[j := job])))
  {
    var t := s.(db := s.db.(scans := s.db.scans[j := job]));
    ScanTouchKeeps(s.db, j, job);
    forall q | q in t.procs ensures ProcOk(t, q, t.procs[q]) {
      assert ProcOk(s, q, s.procs[q]);
      ProcCarriesOver(s, t, q);
    }
    forall f | f in t.db.files ensures Stored(t, f) { assert Stored(s, f); }
  }

  /** Everyone but the holder of a file's scan deals with other files and other jobs. */
  lemma OthersElsewhere(s: State, pid: WorkerId, lease: ScanLease)
    requires Inv(s) && Holds(s.db, pid, lease)
    ensures forall q | q in s.procs && q != pid :: RowIn(s.procs[q]).Some? ==>
      RowIn(s.procs[q]).value.fileId != lease.payload.fileId
    ensures forall q | q in s.procs && q != pid && LeaseIn(s.procs[q]).Some? ::
      LeaseIn(s.procs[q]).value.jobId != lease.jobId
  {
    HeldFile(s.db, pid, lease);
    forall q | q in s.procs && q != pid
      ensures RowIn(s.procs[q]).Some? ==> RowIn(s.procs[q]).value.fileId != lease.payload.fileId
      ensures LeaseIn(s.procs[q]).Some? ==> LeaseIn(s.procs[q]).value.jobId != lease.jobId
    {
      assert ProcOk(s, q, s.procs[q]);
      ProcFacts(s, q);
      if LeaseIn(s.procs[q]).Some? { OneHolder(s.db, pid, q, lease, LeaseIn(s.procs[q]).value); }
    }
  }

  /** Only this file's row and this job differ between the two states. */
  ghost predicate ChangesFile(s: State, t: State, lease: ScanLease) {
    var f := lease.payload.fileId;
    && f in s.db.files && f in t.db.files && t.db.files == s.db.files[f := t.db.files[f]]
    && |t.keys| == |s.keys|
    && (forall u | 0 <= u < |s.keys| && s.keys[u] != InRow(f) :: t.keys[u] == s.keys[u])
    && t.objects == s.objects
    && lease.jobId in t.db.scans && t.db.scans == s.db.scans[lease.jobId := t.db.scans[lease.jobId]]
  }

  lemma OtherProcUnchanged(s: State, t: State, pid: WorkerId, lease: ScanLease, q: WorkerId)
    requires Inv(s) && Holds(s.db, pid, lease) && ChangesFile(s, t, lease) && q in s.procs && q != pid
    ensures ProcOk(t, q, s.procs[q])
  {
    OthersElsewhere(s, pid, lease);
    assert ProcOk(s, q, s.procs[q]);
    ProcFacts(s, q);
    ProcCarriesOver(s, t, q);
  }

  /** The holder of a file's scan changes that file's row and ends that job, and nothing else. */
  lemma FileChangeStep(s: State, t: State, pid: WorkerId, lease: ScanLease)
    requires Inv(s) && DbInv(t.db) && Holds(s.db, pid, lease) && ChangesFile(s, t, lease)
    requires Stored(t, lease.payload.fileId)
    requires forall q | q in t.procs && q != pid :: q in s.procs && t.procs[q] == s.procs[q]
    requires pid in t.procs ==> ProcOk(t, pid, t.procs[pid])
    ensures Inv(t)
  {
    forall q | q in t.procs && q != pid ensures ProcOk(t, q, t.procs[q]) { OtherProcUnchanged(s, t, pid, lease, q); }
    forall g | g in t.db.files ensures Stored(t, g) { if g != lease.payload.fileId { assert Stored(s, g); } }
  }

  /** The verdict is recorded: the row keeps its place and the job is done. */
  lemma ClosedKeeps(s: State, pid: WorkerId, lease: ScanLease, verdict: ScanStatus, db: Db)
    requires Inv(s) && Holds(s.db, pid, lease) && verdict in {Suspicious, Infected, ScanErrored}
    requires CompleteFileScan(s.db, lease.jobId, lease.payload.fileId, lease.payload.contentId, verdict, ScanFailed) == Some(db)
    ensures Inv(Done(s.(db := db), pid))
  {
    var t := Done(s.(db := db), pid);
    HeldFile(s.db, pid, lease);
    CompleteFileScanKeeps(s.db, lease.jobId, verdict);
    assert Stored(s, lease.payload.fileId);
    FileChangeStep(s, t, pid, lease);
  }

  lemma CloseScanNext(s: State, pid: WorkerId, commit: bool)
    requires pid in s.procs && s.procs[pid].Closing?
    ensures var lease := s.procs[pid].lease;
      var tx := CompleteFileScan(s.db, lease.jobId, lease.payload.fileId, lease.payload.contentId,
                                 s.procs[pid].verdict, ScanFailed);
      ScanStep(s, CloseScan(pid, commit)) ==
        if commit && tx.Some? then Done(s.(db := tx.value), pid) else With(s, pid, Reporting(lease))
  {
  }

  lemma CloseScanKeeps(s: State, pid: WorkerId, commit: bool)
    requires Inv(s)
    ensures Inv(ScanStep(s, CloseScan(pid, commit)))
  {
    if pid in s.procs && s.procs[pid].Closing? {
      assert ProcOk(s, pid, s.procs[pid]);
      var lease, verdict := s.procs[pid].lease, s.procs[pid].verdict;
      var tx := CompleteFileScan(s.db, lease.jobId, lease.payload.fileId, lease.payload.contentId, verdict, ScanFailed);
      CloseScanNext(s, pid, commit);
      if commit && tx.Some? {
        ClosedKeeps(s, pid, lease, verdict, tx.value);
      } else {
        QuietStep(s, With(s, pid, Reporting(lease)), pid);
      }
    }
  }

  /** A file that did not come out clean is in nobody's hands. */
  lemma RescanLeavesProc(s: State, f: FileId, j: JobId, q: WorkerId)
    requires Inv(s) && RescanAdminFile(s.db, f, j).Some? && q in s.procs
    ensures ProcOk(s.(db := RescanAdminFile(s.db, f, j).value), q, s.procs[q])
  {
    assert ProcOk(s, q, s.procs[q]);
    ProcFacts(s, q);
    ProcCarriesOver(s, s.(db := RescanAdminFile(s.db, f, j).value), q);
  }

  lemma RescanItemKeeps(s: State, f: FileId, j: JobId)
    requires Inv(s)
    ensures Inv(Saved(s, RescanAdminFile(s.db, f, j)))
  {
    if RescanAdminFile(s.db, f, j).Some? {
      var t := Saved(s, RescanAdminFile(s.db, f, j));
      RescanKeeps(s.db, f, j);
      forall q | q in t.procs ensures ProcOk(t, q, t.procs[q]) { RescanLeavesProc(s, f, j, q); }
      forall g | g in t.db.files ensures Stored(t, g) { assert Stored(s, g); }
    }
  }

  // ----- Promotion ---------------------------------------------------------------------

  /** The copy overwrites nothing that a row or another process relies on. */
  lemma CopiedKeeps(s: State, t: State, pid: WorkerId, lease: ScanLease, bytes: Bytes)
    requires Inv(s) && Holds(s.db, pid, lease)
    requires var target := Promoted(lease.payload.contentId, lease.payload.fileId);
      t == s.(objects := s.objects[target := bytes], procs := t.procs)
    requires forall q | q in t.procs && q != pid :: q in s.procs && t.procs[q] == s.procs[q]
    requires pid in t.procs ==> ProcOk(t, pid, t.procs[pid])
    ensures Inv(t)
  {
    HeldFile(s.db, pid, lease);
    OthersElsewhere(s, pid, lease);
    forall q | q in t.procs && q != pid ensures ProcOk(t, q, t.procs[q]) {
      assert ProcOk(s, q, s.procs[q]);
      ProcFacts(s, q);
    }
    forall f | f in t.db.files ensures Stored(t, f) { assert Stored(s, f) && Placed(f, s.db.files[f]); }
  }

  /** A scan copies its quarantined file, or fails and goes on to report. */
  lemma CopyByScanKeeps(s: State, pid: WorkerId, written: bool, ok: bool)
    requires Inv(s) && pid in s.procs && s.procs[pid].Promoting? && s.procs[pid].intent.ByScan?
    ensures Inv(PromotionStep(s, CopyOut(pid, written, ok)))
  {
    assert ProcOk(s, pid, s.procs[pid]);
    var t := PromotionStep(s, CopyOut(pid, written, ok));
    var lease, row := s.procs[pid].intent.lease, s.procs[pid].row;
    assert Stored(s, row.fileId) && Placed(row.fileId, s.db.files[row.fileId]);
    HeldFile(s.db, pid, lease);
    if written { CopiedKeeps(s, t, pid, lease, s.objects[row.location]); } else { QuietStep(s, t, pid); }
  }

  /** The file of the two other publishers is out of quarantine already. */
  lemma NoCopyKeeps(s: State, pid: WorkerId, written: bool, ok: bool)
    requires Inv(s) && pid in s.procs && s.procs[pid].Promoting? && !s.procs[pid].intent.ByScan?
    ensures Inv(PromotionStep(s, CopyOut(pid, written, ok)))
  {
    assert ProcOk(s, pid, s.procs[pid]);
    var row := s.procs[pid].row;
    assert Stored(s, row.fileId) && Placed(row.fileId, s.db.files[row.fileId]);
    QuietStep(s, PromotionStep(s, CopyOut(pid, written, ok)), pid);
  }

  lemma CopyOutKeeps(s: State, pid: WorkerId, written: bool, ok: bool)
    requires Inv(s)
    ensures Inv(PromotionStep(s, CopyOut(pid, written, ok)))
  {
    if pid in s.procs && s.procs[pid].Promoting? {
      if s.procs[pid].intent.ByScan? { CopyByScanKeeps(s, pid, written, ok); } else { NoCopyKeeps(s, pid, written, ok); }
    }
  }

  /** A file that awaits its scan is in quarantine, under a key issued to its row. */
  lemma KeyOfWaitingRow(s: State, f: FileId)
    requires Inv(s) && f in s.db.files && s.db.files[f].scan == AwaitingScan
    ensures var at := s.db.files[f].location;
      at.key.UploadKey? && at == Quarantined(at.key.upload) && at.key.upload < |s.keys|
      && s.keys[at.key.upload] == InRow(f)
  {
    assert Stored(s, f) && Placed(f, s.db.files[f]);
  }

  /** Publishing by a scan changes only its file, its job and the key of its quarantine object. */
  lemma PublishedByScanChanges(s: State, pid: WorkerId, lease: ScanLease, row: Row, db: Db)
    requires lease.payload.fileId == row.fileId && row.fileId in s.db.files && row.fileId in db.files
    requires row.location.key.UploadKey? && row.location == Quarantined(row.location.key.upload)
    requires row.location.key.upload < |s.keys| && s.keys[row.location.key.upload] == InRow(row.fileId)
    requires db.files == s.db.files[row.fileId := db.files[row.fileId]]
    requires lease.jobId in db.scans && db.scans == s.db.scans[lease.jobId := db.scans[lease.jobId]]
    ensures var t := With(s.(db := db, keys := Retire(s.keys, row.location)), pid, Sweeping(row.location));
      ChangesFile(s, t, lease) && ProcOk(t, pid, t.procs[pid])
  {
    var u := row.location.key.upload;
    assert Retire(s.keys, row.location) == s.keys[u := Retired];
    assert row.location == Quarantined(u);
  }

  /** Publishing by a scan moves the row to the copy and retires the quarantine key. */
  lemma PublishedByScanKeeps(s: State, pid: WorkerId, lease: ScanLease, row: Row, db: Db)
    requires Inv(s) && DbInv(db) && IntentOk(s, pid, ByScan(lease), row)
    requires var target := Promoted(row.contentId, row.fileId);
      && target in s.objects && s.objects[target] == row.hash
      && db.files == s.db.files[row.fileId := s.db.files[row.fileId].(scan := Clean, location := target)]
    requires lease.jobId in db.scans && db.scans == s.db.scans[lease.jobId := db.scans[lease.jobId]]
    ensures Inv(With(s.(db := db, keys := Retire(s.keys, row.location)), pid, Sweeping(row.location)))
  {
    HeldFile(s.db, pid, lease);
    KeyOfWaitingRow(s, row.fileId);
    PublishedByScanChanges(s, pid, lease, row, db);
    FileChangeStep(s, With(s.(db := db, keys := Retire(s.keys, row.location)), pid, Sweeping(row.location)), pid, lease);
  }

  /** The file that one of the two other publishers has read is clean and where it belongs. */
  lemma ReadyCleanRow(s: State, pid: WorkerId)
    requires Inv(s) && pid in s.procs && s.procs[pid].Ready? && !s.procs[pid].intent.ByScan?
    ensures var p := s.procs[pid];
      && !p.copied && p.row.fileId in s.db.files
      && s.db.files[p.row.fileId].location == p.target && s.db.files[p.row.fileId].contentId == p.row.contentId
  {
    assert ProcOk(s, pid, s.procs[pid]);
    assert Placed(s.procs[pid].row.fileId, s.db.files[s.procs[pid].row.fileId]);
  }

  /** So they write the location that the row already has. */
  lemma PublishedCleanTables(db: Db, intent: Intent, row: Row, target: Location, now: Time)
    requires DbInv(db) && !intent.ByScan? && PublishTx(db, intent, row, target, now).Some?
    requires row.fileId in db.files && db.files[row.fileId].location == target
    requires db.files[row.fileId].contentId == row.contentId
    ensures var after := PublishTx(db, intent, row, target, now).value;
      DbInv(after) && after.files == db.files && after.scans == db.scans
  {
    if intent.ByReconcile? {
      PublishCleanKeeps(db, row.fileId, row.contentId, target, now);
    } else {
      ApproveKeeps(db, row.fileId, row.contentId, target, now);
    }
  }

  /** Without a copy there is nothing to sweep. */
  lemma PublishedNext(s: State, pid: WorkerId, now: Time)
    requires pid in s.procs && s.procs[pid].Ready? && !s.procs[pid].copied
    requires PublishTx(s.db, s.procs[pid].intent, s.procs[pid].row, s.procs[pid].target, now).Some?
    ensures var p := s.procs[pid];
      PromotionStep(s, Publish(pid, now, true)) ==
        Done(s.(db := PublishTx(s.db, p.intent, p.row, p.target, now).value), pid)
  {
  }

  lemma PublishedCleanKeeps(s: State, pid: WorkerId, now: Time)
    requires Inv(s) && pid in s.procs && s.procs[pid].Ready? && !s.procs[pid].intent.ByScan?
    requires PublishTx(s.db, s.procs[pid].intent, s.procs[pid].row, s.procs[pid].target, now).Some?
    ensures Inv(PromotionStep(s, Publish(pid, now, true)))
  {
    var p := s.procs[pid];
    var db := PublishTx(s.db, p.intent, p.row, p.target, now).value;
    ReadyCleanRow(s, pid);
    PublishedCleanTables(s.db, p.intent, p.row, p.target, now);
    PublishedNext(s, pid, now);
    TablesOnly(s, db);
    CrashKeeps(s.(db := db), pid);
  }

  /** A scan whose publication failed still holds its job, and its copy is to be undone. */
  lemma UndoNextKeeps(s: State, pid: WorkerId)
    requires Inv(s) && pid in s.procs && s.procs[pid].Ready? && s.procs[pid].intent.ByScan?
    ensures s.procs[pid].copied && Inv(With(s, pid, Undoing(s.procs[pid].intent, s.procs[pid].target)))
  {
    assert ProcOk(s, pid, s.procs[pid]);
    HeldFile(s.db, pid, s.procs[pid].intent.lease);
    QuietStep(s, With(s, pid, Undoing(s.procs[pid].intent, s.procs[pid].target)), pid);
  }

  /** Only a scan makes a copy. */
  lemma ReadyCopied(s: State, pid: WorkerId)
    requires Inv(s) && pid in s.procs && s.procs[pid].Ready?
    ensures s.procs[pid].copied == s.procs[pid].intent.ByScan?
  {
    assert ProcOk(s, pid, s.procs[pid]);
  }

  lemma NotPublishedNext(s: State, pid: WorkerId, now: Time, commit: bool)
    requires pid in s.procs && s.procs[pid].Ready? && s.procs[pid].copied == s.procs[pid].intent.ByScan?
    requires !commit || PublishTx(s.db, s.procs[pid].intent, s.procs[pid].row, s.procs[pid].target, now).None?
    ensures PromotionStep(s, Publish(pid, now, commit)) ==
      if s.procs[pid].copied then With(s, pid, Undoing(s.procs[pid].intent, s.procs[pid].target)) else Done(s, pid)
  {
  }

  /** A publication that fails leaves the rows as they were. */
  lemma NotPublishedKeeps(s: State, pid: WorkerId, now: Time, commit: bool)
    requires Inv(s) && pid in s.procs && s.procs[pid].Ready?
    requires !commit || PublishTx(s.db, s.procs[pid].intent, s.procs[pid].row, s.procs[pid].target, now).None?
    ensures Inv(PromotionStep(s, Publish(pid, now, commit)))
  {
    ReadyCopied(s, pid);
    NotPublishedNext(s, pid, now, commit);
    if s.procs[pid].intent.ByScan? { UndoNextKeeps(s, pid); } else { CrashKeeps(s, pid); }
  }

  lemma CommittedByScanKeeps(s: State, pid: WorkerId, now: Time)
    requires Inv(s) && pid in s.procs && s.procs[pid].Ready? && s.procs[pid].intent.ByScan?
    requires PublishTx(s.db, s.procs[pid].intent, s.procs[pid].row, s.procs[pid].target, now).Some?
    ensures var p := s.procs[pid];
      var db := PublishTx(s.db, p.intent, p.row, p.target, now).value;
      p.copied && Inv(With(s.(db := db, keys := Retire(s.keys, p.row.location)), pid, Sweeping(p.row.location)))
  {
    assert ProcOk(s, pid, s.procs[pid]);
    var p := s.procs[pid];
    HeldFile(s.db, pid, p.intent.lease);
    CompleteFileScanAndPublishKeeps(s.db, p.intent.lease.jobId, now);
    PublishedByScanKeeps(s, pid, p.intent.lease, p.row, PublishTx(s.db, p.intent, p.row, p.target, now).value);
  }

  lemma PublishKeeps(s: State, pid: WorkerId, now: Time, commit: bool)
    requires Inv(s)
    ensures Inv(PromotionStep(s, Publish(pid, now, commit)))
  {
    if pid in s.procs && s.procs[pid].Ready? {
      var p := s.procs[pid];
      if !commit || PublishTx(s.db, p.intent, p.row, p.target, now).None? { NotPublishedKeeps(s, pid, now, commit); }
      else if p.intent.ByScan? { CommittedByScanKeeps(s, pid, now); }
      else { PublishedCleanKeeps(s, pid, now); }
    }
  }

  // ----- Every run ---------------------------------------------------------------------

  lemma UploadStepKeeps(s: State, a: Action)
    requires Inv(s) && IsUpload(a)
    ensures Inv(UploadStep(s, a))
  {
    if a.StoreObject? { StoreObjectKeeps(s, a.pid, a.hash); }
    else if a.InsertUpload? { InsertUploadKeeps(s, a.pid, a.upload, a.commit); }
    else { DropUploadKeeps(s, a.pid, a.removed); }
  }

  lemma ScanStepKeeps(s: State, a: Action)
    requires Inv(s) && IsScan(a)
    ensures Inv(ScanStep(s, a))
  {
    if a.ClaimScan? { ClaimScanKeeps(s, a.pid, a.jobId, a.now); }
    else if a.LoadFile? { LoadFileKeeps(s, a.pid, a.ok); }
    else if a.Inspect? { InspectKeeps(s, a.pid, a.outcome); }
    else if a.CloseScan? { CloseScanKeeps(s, a.pid, a.commit); }
    else if a.Report? { ReportKeeps(s, a.pid, a.now, a.commit); }
    else { RetryScanKeeps(s, a.jobId, a.now); }
  }

  lemma PromotionStepKeeps(s: State, a: Action)
    requires Inv(s) && IsPromotion(a)
    ensures Inv(PromotionStep(s, a))
  {
    if a.LoadCandidate? || a.LoadApproval? { LoadForPublishKeeps(s, a); }
    else if a.CopyOut? { CopyOutKeeps(s, a.pid, a.written, a.ok); }
    else if a.Publish? { PublishKeeps(s, a.pid, a.now, a.commit); }
    else if a.Undo? { UndoKeeps(s, a.pid, a.removed); }
    else { SweepKeeps(s, a.pid, a.removed); }
  }

  lemma TablesStepKeeps(s: State, a: Action)
    requires Inv(s)
    ensures Inv(TablesStep(s, a))
  {
    match a
    case ReviewItem(c, review, now) => ReviewItemKeeps(s, c, review, now);
    case UpdateItem(owner, c, input) => UpdateItemKeeps(s, owner, c, input);
    case DeleteItem(owner, c, now) => DeleteItemKeeps(s, owner, c, now);
    case Rescan(f, j) => RescanItemKeeps(s, f, j);
    case Refresh(c) => RefreshKeeps(s, c);
    case _ =>
  }

  lemma ApplyKeeps(s: State, a: Action)
    requires Inv(s)
    ensures Inv(Apply(s, a))
  {
    if IsUpload(a) { UploadStepKeeps(s, a); }
    else if IsScan(a) { ScanStepKeeps(s, a); }
    else if IsPromotion(a) { PromotionStepKeeps(s, a); }
    else if IsSync(a) { SyncKeeps(s, a); }
    else if a.Crash? { CrashKeeps(s, a.pid); }
    else { TablesStepKeeps(s, a); }
  }

  lemma {:induction false} RunKeeps(actions: seq<Action>)
    ensures Inv(Run(START, actions))
    decreases |actions|
  {
    if |actions| == 0 {
      EmptyInv();
    } else {
      RunKeeps(actions[..|actions| - 1]);
      ApplyKeeps(Run(START, actions[..|actions| - 1]), actions[|actions| - 1]);
    }
  }
}
