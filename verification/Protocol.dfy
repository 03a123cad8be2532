/**
  The publication protocol as a step machine: the tables, the object store, the search
  index and every upload, worker and admin request in flight.

  A database transaction is one step and a failed commit is a rollback; an object-store call
  is its own step, and one that reports an error may or may not have taken effect; a
  process may crash between any two steps. An action carries all the choices the
  environment makes, so a run is a sequence of actions; an action that is not enabled does
  nothing.
 */
module Protocol {
  import opened Wrappers
  import opened Jobs
  import opened Publication

  type ScanLease = Lease<ScanPayload>
  type SyncLease = Lease<SearchPayload>

  /** The columns of a content file that scans and promotions read. */
  datatype Row = Row(fileId: FileId, contentId: ItemId, location: Location, hash: Bytes, scan: ScanStatus)

  /** Who publishes: the scan that just found the file clean, the reconciling worker, or an admin. */
  datatype Intent = ByScan(lease: ScanLease) | ByReconcile | ByAdmin

  /** Where a process stands, with the local variables it still needs. */
  datatype Proc =
    | Storing(upload: nat, hash: Bytes)                   // object stored, rows not yet inserted
    | Dropping(upload: nat)                               // insert failed, object about to go
    | Leased(lease: ScanLease)                            // scan job claimed
    | Loaded(lease: ScanLease, row: Row)                  // row read and equal to the payload
    | Closing(lease: ScanLease, verdict: ScanStatus)      // about to record a verdict other than clean
    | Promoting(intent: Intent, row: Row)                 // about to copy out of quarantine
    | Ready(intent: Intent, row: Row, target: Location, copied: bool)
    | Undoing(intent: Intent, target: Location)           // publish failed, copy about to go
    | Sweeping(source: Location)                          // published, quarantine object about to go
    | Reporting(lease: ScanLease)                         // about to MarkFailed

  /** A worker on a search job: claimed, document read, index written, or about to MarkFailed. */
  datatype Sync =
    | SyncLeased(lease: SyncLease)
    | SyncRead(lease: SyncLease, doc: Option<Meta>)
    | SyncWritten(lease: SyncLease)
    | SyncReporting(lease: SyncLease)

  /** History of a quarantine key: no guard reads it, except that keys are issued once. */
  datatype KeyUse = InUpload(pid: WorkerId) | InRow(fileId: FileId) | Retired

  datatype State = State(
    db: Db,
    objects: map<Location, Bytes>,
    keys: seq<KeyUse>,
    procs: map<WorkerId, Proc>,
    index: map<ItemId, Meta>,
    syncs: map<WorkerId, Sync>)

  /** What reading the object, the antivirus and the package validator came to. */
  datatype Outcome = Unreadable | FoundInfected | FoundMalformed | AntivirusSkipped | FoundClean

  datatype Action =
    | StoreObject(pid: WorkerId, hash: Bytes)
    | InsertUpload(pid: WorkerId, upload: Upload, commit: bool)
    | DropUpload(pid: WorkerId, removed: bool)
    | ClaimScan(pid: WorkerId, jobId: JobId, now: Time)
    | LoadFile(pid: WorkerId, ok: bool)
    | Inspect(pid: WorkerId, outcome: Outcome)
    | CloseScan(pid: WorkerId, commit: bool)
    | LoadCandidate(pid: WorkerId, contentId: ItemId)
    | LoadApproval(pid: WorkerId, contentId: ItemId)
    | CopyOut(pid: WorkerId, written: bool, ok: bool)
    | Publish(pid: WorkerId, now: Time, commit: bool)
    | Undo(pid: WorkerId, removed: bool)
    | Sweep(pid: WorkerId, removed: bool)
    | Report(pid: WorkerId, now: Time, commit: bool)
    | Crash(pid: WorkerId)
    | RetryScan(jobId: JobId, now: Time)
    | ReviewItem(contentId: ItemId, review: Review, now: Time)
    | UpdateItem(owner: UserId, contentId: ItemId, input: OwnerUpdate)
    | DeleteItem(owner: UserId, contentId: ItemId, now: Time)
    | Rescan(fileId: FileId, jobId: JobId)
    | Refresh(contentId: ItemId)
    | ClaimSync(pid: WorkerId, jobId: JobId, now: Time)
    | ReadSync(pid: WorkerId)
    | WriteSync(pid: WorkerId, written: bool, ok: bool)
    | MarkSync(pid: WorkerId, commit: bool)
    | ReportSync(pid: WorkerId, now: Time, commit: bool)
    | CrashSync(pid: WorkerId)
    | RetrySync(jobId: JobId, now: Time)

  function RowOf(db: Db, fileId: FileId): Row
    requires fileId in db.files
  {
    var f := db.files[fileId];
    Row(fileId, f.contentId, f.location, f.hash, f.scan)
  }

  function With(s: State, pid: WorkerId, proc: Proc): State {
    s.(procs := s.procs[pid := proc])
  }

  function Done(s: State, pid: WorkerId): State {
    s.(procs := s.procs - {pid})
  }

  /** A transaction ran: keep its tables if it matched its rows and committed. */
  function Saved(s: State, tx: Option<Db>): State {
    match tx
    case Some(db) => s.(db := db)
    case None => s
  }

  function Committed(tx: Option<Db>, commit: bool): Option<Db> {
    if commit then tx else None
  }

  /** A failed scan step ends in MarkFailed; the two other publishers have no job to report. */
  function Failed(s: State, pid: WorkerId, intent: Intent): State {
    match intent
    case ByScan(lease) => With(s, pid, Reporting(lease))
    case _ => Done(s, pid)
  }

  function PublishTx(db: Db, intent: Intent, row: Row, target: Location, now: Time): Option<Db> {
    match intent
    case ByScan(lease) => CompleteFileScanAndPublish(db, lease.jobId, row.fileId, row.contentId, Clean, target, now)
    case ByReconcile => PublishClean(db, row.fileId, row.contentId, target, now)
    case ByAdmin => Approve(db, row.fileId, row.contentId, target, now)
  }

  function Retire(keys: seq<KeyUse>, location: Location): seq<KeyUse> {
    if location.key.UploadKey? && location.key.upload < |keys| then keys[location.key.upload := Retired] else keys
  }

  // ----- Uploads -----------------------------------------------------------------------

  predicate IsUpload(a: Action) {
    a.StoreObject? || a.InsertUpload? || a.DropUpload?
  }

  function UploadStep(s: State, a: Action): State
    requires IsUpload(a)
  {
    match a
    case StoreObject(pid, hash) =>
      if pid in s.procs then s else
        With(s.(objects := s.objects[Quarantined(|s.keys|) := hash], keys := s.keys + [InUpload(pid)]),
             pid, Storing(|s.keys|, hash))
    case InsertUpload(pid, upload, commit) =>
      if pid !in s.procs || !s.procs[pid].Storing? || s.procs[pid].upload >= |s.keys| then s else
        var proc := s.procs[pid];
        (match Committed(CreateUpload(s.db, upload, Quarantined(proc.upload), proc.hash), commit)
         case Some(db) => Done(s.(db := db, keys := s.keys[proc.upload := InRow(upload.fileId)]), pid)
         case None => With(s.(keys := s.keys[proc.upload := Retired]), pid, Dropping(proc.upload)))
    case DropUpload(pid, removed) =>
      if pid !in s.procs || !s.procs[pid].Dropping? then s else
        Done(if removed then s.(objects := s.objects - {Quarantined(s.procs[pid].upload)}) else s, pid)
  }

  // ----- The scan worker ---------------------------------------------------------------

  predicate IsScan(a: Action) {
    a.ClaimScan? || a.LoadFile? || a.Inspect? || a.CloseScan? || a.Report? || a.RetryScan?
  }

  function ScanStep(s: State, a: Action): State
    requires IsScan(a)
  {
    match a
    case ClaimScan(pid, jobId, now) =>
      if pid in s.procs || jobId !in s.db.scans || !Claimable(s.db.scans[jobId], FileScanQueue, now) then s else
        var job := Jobs.Claimed(s.db.scans[jobId], pid);
        With(s.(db := s.db.(scans := s.db.scans[jobId := job])), pid, Leased(LeaseOf(jobId, job)))
    case LoadFile(pid, ok) =>
      if pid !in s.procs || !s.procs[pid].Leased? then s else
        var lease := s.procs[pid].lease;
        if !ok || lease.payload.fileId !in s.db.files then With(s, pid, Reporting(lease))
        else if !PayloadMatches(lease.payload, s.db.files[lease.payload.fileId]) then
          With(s, pid, Closing(lease, Suspicious))
        else With(s, pid, Loaded(lease, RowOf(s.db, lease.payload.fileId)))
    case Inspect(pid, outcome) =>
      if pid !in s.procs || !s.procs[pid].Loaded? then s else
        var lease, row := s.procs[pid].lease, s.procs[pid].row;
        if outcome.Unreadable? || row.location !in s.objects then With(s, pid, Reporting(lease))
        else if s.objects[row.location] != row.hash then With(s, pid, Closing(lease, Suspicious))
        else (match outcome
          case FoundInfected => With(s, pid, Closing(lease, Infected))
          case FoundMalformed => With(s, pid, Closing(lease, Suspicious))
          case AntivirusSkipped => With(s, pid, Closing(lease, ScanErrored))
          case _ => With(s, pid, Promoting(ByScan(lease), row)))
    case CloseScan(pid, commit) =>
      if pid !in s.procs || !s.procs[pid].Closing? then s else
        var lease := s.procs[pid].lease;
        (match Committed(CompleteFileScan(s.db, lease.jobId, lease.payload.fileId, lease.payload.contentId,
                                          s.procs[pid].verdict, ScanFailed), commit)
         case Some(db) => Done(s.(db := db), pid)
         case None => With(s, pid, Reporting(lease)))
    case Report(pid, now, commit) =>
      if pid !in s.procs || !s.procs[pid].Reporting? then s else
        var lease := s.procs[pid].lease;
        if commit && lease.jobId in s.db.scans then
          var job := MarkedFailed(s.db.scans[lease.jobId], lease.attempts, lease.maxAttempts, now);
          Done(s.(db := s.db.(scans := s.db.scans[lease.jobId := job])), pid)
        else Done(s, pid)
    case RetryScan(jobId, now) =>
      if jobId !in s.db.scans || !Retryable(s.db.scans[jobId]) then s else
        s.(db := s.db.(scans := s.db.scans[jobId := Retried(s.db.scans[jobId], now)]))
  }

  // ----- Promotion: the scan worker, the reconciling worker and the Approve handler -----

  predicate IsPromotion(a: Action) {
    a.LoadCandidate? || a.LoadApproval? || a.CopyOut? || a.Publish? || a.Undo? || a.Sweep?
  }

  function PromotionStep(s: State, a: Action): State
    requires IsPromotion(a)
  {
    match a
    case LoadCandidate(pid, contentId) =>
      if pid in s.procs || contentId !in s.db.items || s.db.items[contentId].fileId !in s.db.files then s else
        var item := s.db.items[contentId];
        var row := RowOf(s.db, item.fileId);
        if item.status == PendingModeration && item.deletedAt == None && row.scan == Clean
        then With(s, pid, Promoting(ByReconcile, row)) else s
    case LoadApproval(pid, contentId) =>
      if pid in s.procs || contentId !in s.db.items || s.db.items[contentId].fileId !in s.db.files then s else
        var item := s.db.items[contentId];
        var row := RowOf(s.db, item.fileId);
        if item.deletedAt == None && item.status in {PendingModeration, Approved} && row.scan == Clean
        then With(s, pid, Promoting(ByAdmin, row)) else s
    case CopyOut(pid, written, ok) =>
      if pid !in s.procs || !s.procs[pid].Promoting? then s else
        var intent, row := s.procs[pid].intent, s.procs[pid].row;
        if row.location.bucket != QuarantineBucket then With(s, pid, Ready(intent, row, row.location, false))
        else if row.location !in s.objects || !written then Failed(s, pid, intent)
        else
          var target := Promoted(row.contentId, row.fileId);
          var t := s.(objects := s.objects[target := s.objects[row.location]]);
          if ok then With(t, pid, Ready(intent, row, target, true)) else Failed(t, pid, intent)
    case Publish(pid, now, commit) =>
      if pid !in s.procs || !s.procs[pid].Ready? then s else
        var p := s.procs[pid];
        (match Committed(PublishTx(s.db, p.intent, p.row, p.target, now), commit)
         case Some(db) =>
           if p.copied then With(s.(db := db, keys := Retire(s.keys, p.row.location)), pid, Sweeping(p.row.location))
           else Done(s.(db := db), pid)
         case None =>
           if p.copied then With(s, pid, Undoing(p.intent, p.target)) else Failed(s, pid, p.intent))
    case Undo(pid, removed) =>
      if pid !in s.procs || !s.procs[pid].Undoing? then s else
        var p := s.procs[pid];
        Failed(if removed then s.(objects := s.objects - {p.target}) else s, pid, p.intent)
    case Sweep(pid, removed) =>
      if pid !in s.procs || !s.procs[pid].Sweeping? then s else
        Done(if removed then s.(objects := s.objects - {s.procs[pid].source}) else s, pid)
  }

  // ----- Search synchronisation --------------------------------------------------------

  /** A delete job reads nothing; an upsert job finds a document or, for an item not visible, none. */
  function ReadDoc(db: Db, payload: SearchPayload): Option<Meta> {
    if payload.action == Upsert then DocOf(db, payload.contentId) else None
  }

  /** UpsertContent with a document, DeleteContent without one. */
  function WrittenTo(index: map<ItemId, Meta>, id: ItemId, doc: Option<Meta>): map<ItemId, Meta> {
    match doc
    case Some(meta) => index[id := meta]
    case None => index - {id}
  }

  function Indexed(index: map<ItemId, Meta>, id: ItemId): Option<Meta> {
    if id in index then Some(index[id]) else None
  }

  predicate IsSync(a: Action) {
    a.ClaimSync? || a.ReadSync? || a.WriteSync? || a.MarkSync? || a.ReportSync? || a.CrashSync? || a.RetrySync?
  }

  function SyncStep(s: State, a: Action): State
    requires IsSync(a)
  {
    match a
    case ClaimSync(pid, jobId, now) =>
      if pid in s.syncs || jobId >= |s.db.search| || !Claimable(s.db.search[jobId], SearchQueue, now) then s else
        var job := Jobs.Claimed(s.db.search[jobId], pid);
        s.(db := s.db.(search := s.db.search[jobId := job]), syncs := s.syncs[pid := SyncLeased(LeaseOf(jobId, job))])
    case ReadSync(pid) =>
      if pid !in s.syncs || !s.syncs[pid].SyncLeased? then s else
        var lease := s.syncs[pid].lease;
        s.(syncs := s.syncs[pid := SyncRead(lease, ReadDoc(s.db, lease.payload))])
    case WriteSync(pid, written, ok) =>
      if pid !in s.syncs || !s.syncs[pid].SyncRead? then s else
        var lease := s.syncs[pid].lease;
        var id := lease.payload.contentId;
        if !written then s.(syncs := s.syncs[pid := SyncReporting(lease)])
        else
          s.(index := WrittenTo(s.index, id, s.syncs[pid].doc),
             syncs := s.syncs[pid := if ok then SyncWritten(lease) else SyncReporting(lease)])
    case MarkSync(pid, commit) =>
      if pid !in s.syncs || !s.syncs[pid].SyncWritten? then s else
        var lease := s.syncs[pid].lease;
        if commit && lease.jobId < |s.db.search| then
          s.(db := s.db.(search := s.db.search[lease.jobId := MarkedSucceeded(s.db.search[lease.jobId])]),
             syncs := s.syncs - {pid})
        else s.(syncs := s.syncs[pid := SyncReporting(lease)])
    case ReportSync(pid, now, commit) =>
      if pid !in s.syncs || !s.syncs[pid].SyncReporting? then s else
        var lease := s.syncs[pid].lease;
        if commit && lease.jobId < |s.db.search| then
          var job := MarkedFailed(s.db.search[lease.jobId], lease.attempts, lease.maxAttempts, now);
          s.(db := s.db.(search := s.db.search[lease.jobId := job]), syncs := s.syncs - {pid})
        else s.(syncs := s.syncs - {pid})
    case CrashSync(pid) => s.(syncs := s.syncs - {pid})
    case RetrySync(jobId, now) =>
      if jobId >= |s.db.search| || !Retryable(s.db.search[jobId]) then s else
        s.(db := s.db.(search := s.db.search[jobId := Retried(s.db.search[jobId], now)]))
  }

  // ----- Runs --------------------------------------------------------------------------

  /** One transaction on the tables, with nothing in flight. */
  function TablesStep(s: State, a: Action): State {
    match a
    case ReviewItem(contentId, review, now) => Saved(s, ReviewContent(s.db, contentId, review, now))
    case UpdateItem(owner, contentId, input) => Saved(s, UpdateOwned(s.db, owner, contentId, input))
    case DeleteItem(owner, contentId, now) => Saved(s, DeleteOwned(s.db, owner, contentId, now))
    case Rescan(fileId, jobId) => Saved(s, RescanAdminFile(s.db, fileId, jobId))
    case Refresh(contentId) => Saved(s, RefreshSearch(s.db, contentId))
    case _ => s
  }

  function Apply(s: State, a: Action): State {
    if IsUpload(a) then UploadStep(s, a)
    else if IsScan(a) then ScanStep(s, a)
    else if IsPromotion(a) then PromotionStep(s, a)
    else if IsSync(a) then SyncStep(s, a)
    else if a.Crash? then Done(s, a.pid)
    else TablesStep(s, a)
  }

  function Run(s: State, actions: seq<Action>): State
    decreases |actions|
  {
    if |actions| == 0 then s else Apply(Run(s, actions[..|actions| - 1]), actions[|actions| - 1])
  }

  const START: State := State(EMPTY, map[], [], map[], map[], map[])
}
