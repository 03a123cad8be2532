/**
  Who may change which column, and to what: one condition per column, kept by every step of
  every process. What an owner gave is what the row holds, and only owners change it.
 */
module PublicationColumns {
  import opened Wrappers
  import opened Jobs
  import opened Publication
  import opened PublicationProofs
  import opened Protocol
  import opened ProtocolProofs
  import opened PublicationSteps

  // ----- Owner edits -------------------------------------------------------------------

  predicate EditsText(input: OwnerUpdate) {
    input.title.Some? || input.description.Some? || input.nsfw.Some? || input.tags.Some?
  }

  /** A column of an edit: what was given, or else what was there. */
  predicate Given<T(==)>(given: Option<T>, before: T, after: T) {
    match given
    case Some(value) => after == value
    case None => after == before
  }

  predicate EditedAs(input: OwnerUpdate, before: Item, after: Item) {
    && Given(input.title, before.meta.title, after.meta.title)
    && Given(input.description, before.meta.description, after.meta.description)
    && Given(input.nsfw, before.meta.nsfw, after.meta.nsfw)
    && Given(input.tags, before.meta.tags, after.meta.tags)
    && Given(input.visibility, before.visibility, after.visibility)
  }

  /** A reviewed item whose text is edited. */
  predicate NeedsReview(status: Status, input: OwnerUpdate) {
    status in {Approved, Published, Rejected, Hidden} && EditsText(input)
  }

  /** An owner edit succeeds exactly for the author of an item not deleted, if a review it needs has a clean file. */
  lemma OwnerEditAccepted(db: Db, owner: UserId, c: ItemId, input: OwnerUpdate)
    ensures UpdateOwned(db, owner, c, input).Some? <==>
      && c in db.items && db.items[c].author == owner
      && db.items[c].deletedAt == None && db.items[c].status != Deleted
      && (NeedsReview(db.items[c].status, input) ==>
            db.items[c].fileId in db.files && db.files[db.items[c].fileId].scan == Clean)
  {
  }

  /** And then every column of the item is the given one, or else the old one; text goes back to moderation. */
  lemma OwnerEditColumns(db: Db, owner: UserId, c: ItemId, input: OwnerUpdate)
    requires UpdateOwned(db, owner, c, input).Some?
    ensures var after := UpdateOwned(db, owner, c, input).value;
      && after.items.Keys == db.items.Keys && (forall d | d in db.items && d != c :: after.items[d] == db.items[d])
      && after.files == db.files && after.scans == db.scans
      && EditedAs(input, db.items[c], after.items[c])
      && after.items[c].author == owner && after.items[c].fileId == db.items[c].fileId
      && after.items[c].deletedAt == None
      && after.items[c].status ==
           (if NeedsReview(db.items[c].status, input) then PendingModeration else db.items[c].status)
  {
  }

  // ----- What each transaction accepts, and where it leads -----------------------------

  /** One job is appended for the search workers: new, for this item, due at once. */
  predicate Enqueues(db: Db, after: Db, c: ItemId, action: SearchAction) {
    && |after.search| == |db.search| + 1 && after.search[..|db.search|] == db.search
    && var job := after.search[|db.search|];
    && job.queue == SearchQueue && job.payload == SearchPayload(c, action)
    && job.status == Pending && job.attempts == 0 && job.maxAttempts == 5 && job.nextRetryAt == None
  }

  /** A scan job is added for the file: new, describing its row, due at once. */
  predicate QueuesScan(db: Db, after: Db, j: JobId, c: ItemId, f: FileId) {
    && j !in db.scans && j in after.scans && after.scans.Keys == db.scans.Keys + {j}
    && (forall i | i in db.scans :: after.scans[i] == db.scans[i])
    && f in after.files && after.files[f].scan == AwaitingScan
    && var job := after.scans[j];
    && job.queue == FileScanQueue && job.payload == ScanPayload(c, f, after.files[f].location)
    && job.status == Pending && job.attempts == 0 && job.maxAttempts == 5 && job.nextRetryAt == None
  }

  /** An upload is refused exactly when an item of its author that was not deleted has the same bytes. */
  lemma UploadAccepted(db: Db, u: Upload, location: Location, hash: Bytes)
    requires TablesOk(db) && u.contentId !in db.items && u.fileId !in db.files && u.jobId !in db.scans
    ensures var tx := CreateUpload(db, u, location, hash);
      && (tx.None? <==> exists c | c in db.items ::
            db.items[c].author == u.author && db.items[c].status != Deleted && db.files[db.items[c].fileId].hash == hash)
      && (tx.Some? ==> QueuesScan(db, tx.value, u.jobId, u.contentId, u.fileId) && tx.value.search == db.search)
  {
    if CreateUpload(db, u, location, hash).None? {
      var f :| f in db.files && db.files[f].hash == hash && db.files[f].contentId in db.items
               && db.items[db.files[f].contentId].author == u.author
               && db.items[db.files[f].contentId].status != Deleted;
      assert db.items[db.files[f].contentId].fileId == f;
    }
  }

  predicate ReviewAllowed(db: Db, c: ItemId, review: Review) {
    && c in db.items && db.items[c].deletedAt == None
    && match review
       case Reject => db.items[c].status in {PendingModeration, Approved, ScanFailed}
       case Hide => db.items[c].status in {Published, Approved}
       case Restore =>
         db.items[c].status == Hidden && db.items[c].fileId in db.files && db.files[db.items[c].fileId].scan == Clean
  }

  lemma ReviewAccepted(db: Db, c: ItemId, review: Review, now: Time)
    ensures var tx := ReviewContent(db, c, review, now);
      && (tx.Some? <==> ReviewAllowed(db, c, review))
      && (tx.Some? ==>
            && c in tx.value.items && tx.value.scans == db.scans
            && (match review
                case Reject => tx.value.items[c].status == Rejected && Enqueues(db, tx.value, c, Delete)
                case Hide => tx.value.items[c].status == Hidden && Enqueues(db, tx.value, c, Delete)
                case Restore => tx.value.items[c].status == Published && Enqueues(db, tx.value, c, Upsert)))
  {
  }

  lemma DeleteAccepted(db: Db, owner: UserId, c: ItemId, now: Time)
    requires DbInv(db)
    ensures var tx := DeleteOwned(db, owner, c, now);
      && (tx.Some? <==> c in db.items && db.items[c].author == owner
                        && db.items[c].deletedAt == None && db.items[c].status != Deleted)
      && (tx.Some? ==>
            && c in tx.value.items && tx.value.scans == db.scans
            && tx.value.items[c].status == Deleted && tx.value.items[c].deletedAt == Some(now)
            && if Visible(db, c) then Enqueues(db, tx.value, c, Delete) else tx.value.search == db.search)
  {
    if c in db.items { TwoFieldTestIsVisibility(db, c); }
  }

  /** An owner edit announces the item if the public sees it then, and its absence if it did before. */
  lemma OwnerEditEnqueues(db: Db, owner: UserId, c: ItemId, input: OwnerUpdate)
    requires DbInv(db) && UpdateOwned(db, owner, c, input).Some?
    ensures var after := UpdateOwned(db, owner, c, input).value;
      if Visible(after, c) then Enqueues(db, after, c, Upsert)
      else if Visible(db, c) then Enqueues(db, after, c, Delete)
      else after.search == db.search
  {
    UpdateOwnedKeeps(db, owner, c, input);
    TwoFieldTestIsVisibility(db, c);
    TwoFieldTestIsVisibility(UpdateOwned(db, owner, c, input).value, c);
  }

  lemma RescanAccepted(db: Db, f: FileId, j: JobId)
    requires TablesOk(db) && j !in db.scans
    ensures var tx := RescanAdminFile(db, f, j);
      && (tx.Some? <==> f in db.files && db.files[f].scan in {ScanErrored, Suspicious, Infected})
      && (tx.Some? ==>
            var c := db.files[f].contentId;
            && c in tx.value.items && tx.value.items[c].status == PendingScan
            && QueuesScan(db, tx.value, j, c, f) && tx.value.search == db.search)
  {
  }

  /** The scan publishes from either pending status, the reconciling worker too, and the admin what awaits moderation. */
  lemma PublicationAccepted(db: Db, intent: Intent, row: Row, target: Location, now: Time)
    requires row.contentId in db.items && row.fileId in db.files && db.files[row.fileId].contentId == row.contentId
    requires intent.ByScan? ==> intent.lease.jobId in db.scans
    ensures var item, file := db.items[row.contentId], db.files[row.fileId];
      var tx := PublishTx(db, intent, row, target, now);
      && (tx.Some? <==> match intent
            case ByScan(_) => item.status in {PendingScan, PendingModeration} && item.deletedAt == None
            case ByReconcile =>
              item.status in {PendingScan, PendingModeration} && item.deletedAt == None && file.scan == Clean
            case ByAdmin => item.status in {PendingModeration, Approved} && file.scan == Clean)
      && (tx.Some? ==>
            && row.contentId in tx.value.items && tx.value.items[row.contentId].status == Published
            && Enqueues(db, tx.value, row.contentId, Upsert)
            && (if intent.ByScan?
                then intent.lease.jobId in tx.value.scans && tx.value.scans[intent.lease.jobId].status == Succeeded
                else tx.value.scans == db.scans))
  {
  }

  lemma ClosingAccepted(db: Db, j: JobId, f: FileId, c: ItemId, verdict: ScanStatus)
    requires c in db.items && f in db.files && j in db.scans
    ensures var tx := CompleteFileScan(db, j, f, c, verdict, ScanFailed);
      && tx.Some? && f in tx.value.files && c in tx.value.items && j in tx.value.scans
      && tx.value.files[f].scan == verdict && tx.value.items[c].status == ScanFailed
      && tx.value.scans[j].status == Succeeded && tx.value.search == db.search
  {
  }

  lemma RefreshAccepted(db: Db, c: ItemId)
    ensures RefreshSearch(db, c).Some? <==> c in db.items
    ensures RefreshSearch(db, c).Some? ==> Enqueues(db, RefreshSearch(db, c).value, c, Upsert)
  {
  }

  // ----- One condition per column ------------------------------------------------------

  /** The process of this action has item c ready to publish. */
  predicate Publishes(s: State, a: Action, c: ItemId) {
    a.Publish? && a.commit && a.pid in s.procs && s.procs[a.pid].Ready? && s.procs[a.pid].row.contentId == c
  }

  predicate Reviews(a: Action, c: ItemId, review: Review) {
    a.ReviewItem? && a.contentId == c && a.review == review
  }

  predicate Edits(a: Action, c: ItemId, owner: UserId) {
    a.UpdateItem? && a.contentId == c && a.owner == owner
  }

  predicate Deletes(a: Action, c: ItemId, owner: UserId) {
    a.DeleteItem? && a.contentId == c && a.owner == owner
  }

  predicate Closes(s: State, a: Action, f: FileId) {
    a.CloseScan? && a.commit && a.pid in s.procs && s.procs[a.pid].Closing? && s.procs[a.pid].lease.payload.fileId == f
  }

  /** The moves between statuses, each with the only action that makes it. */
  predicate StatusBy(s: State, a: Action, c: ItemId, before: Item, to: Status) {
    match to
    case Published =>
      || (Publishes(s, a, c) && before.status in {PendingScan, PendingModeration, Approved})
      || (Reviews(a, c, Restore) && before.status == Hidden)
    case Hidden => Reviews(a, c, Hide) && before.status in {Published, Approved}
    case Rejected => Reviews(a, c, Reject) && before.status in {PendingModeration, Approved, ScanFailed}
    case Deleted => Deletes(a, c, before.author)
    case PendingModeration => Edits(a, c, before.author) && NeedsReview(before.status, a.input)
    case ScanFailed => Closes(s, a, before.fileId)
    case PendingScan => a.Rescan? && a.fileId == before.fileId
    case Approved => false
  }

  predicate ItemBy(s: State, a: Action, c: ItemId, before: Item, after: Item) {
    && after.author == before.author && after.fileId == before.fileId
    && (after.meta != before.meta || after.visibility != before.visibility ==>
          Edits(a, c, before.author) && EditedAs(a.input, before, after))
    && (after.status != before.status ==> StatusBy(s, a, c, before, after.status))
    && (after.deletedAt != before.deletedAt ==>
          Deletes(a, c, before.author) && before.deletedAt == None && after.deletedAt == Some(a.now))
    // the first publication and the first hiding keep their time until the column is cleared
    && (before.publishedAt.Some? && after.publishedAt.Some? ==> after.publishedAt == before.publishedAt)
    && (before.publishedAt.None? && after.publishedAt.Some? ==>
          (Publishes(s, a, c) || Reviews(a, c, Restore)) && after.publishedAt == Some(a.now))
    && (before.hiddenAt.Some? && after.hiddenAt.Some? ==> after.hiddenAt == before.hiddenAt)
    && (before.hiddenAt.None? && after.hiddenAt.Some? ==> Reviews(a, c, Hide) && after.hiddenAt == Some(a.now))
  }

  predicate FileBy(s: State, a: Action, f: FileId, before: File, after: File) {
    && after.contentId == before.contentId && after.hash == before.hash
    && (after.scan != before.scan || after.location != before.location ==>
          match after.scan
          case AwaitingScan =>
            a.Rescan? && a.fileId == f && before.scan in {Suspicious, Infected, ScanErrored}
            && after.location == before.location
          case Clean =>
            before.scan == AwaitingScan && Publishes(s, a, before.contentId) && s.procs[a.pid].intent.ByScan?
            && after.location == Location(PrivateBucket, ContentKey(before.contentId, f))
          case verdict =>
            before.scan == AwaitingScan && Closes(s, a, f) && s.procs[a.pid].verdict == verdict
            && after.location == before.location)
  }

  ghost predicate ItemsBy(s: State, a: Action, after: Db) {
    forall c | c in s.db.items :: c in after.items && ItemBy(s, a, c, s.db.items[c], after.items[c])
  }

  ghost predicate FilesBy(s: State, a: Action, after: Db) {
    forall f | f in s.db.files :: f in after.files && FileBy(s, a, f, s.db.files[f], after.files[f])
  }

  ghost predicate Columns(s: State, a: Action, after: Db) {
    ItemsBy(s, a, after) && FilesBy(s, a, after)
  }

  lemma NoColumn(s: State, a: Action, after: Db)
    requires after.items == s.db.items && after.files == s.db.files
    ensures Columns(s, a, after)
  {
  }

  lemma OneFile(s: State, a: Action, after: Db, f: FileId)
    requires f in s.db.files && f in after.files && after.files == s.db.files[f := after.files[f]]
    requires FileBy(s, a, f, s.db.files[f], after.files[f])
    ensures FilesBy(s, a, after)
  {
  }

  lemma OneItem(s: State, a: Action, after: Db, c: ItemId)
    requires c in s.db.items && c in after.items && after.items == s.db.items[c := after.items[c]]
    requires ItemBy(s, a, c, s.db.items[c], after.items[c])
    ensures ItemsBy(s, a, after)
  {
  }

  /** One item and one file change. */
  lemma ColumnsOf(s: State, a: Action, after: Db, c: ItemId, f: FileId)
    requires c in s.db.items && c in after.items && after.items == s.db.items[c := after.items[c]]
    requires f in s.db.files && f in after.files && after.files == s.db.files[f := after.files[f]]
    requires ItemBy(s, a, c, s.db.items[c], after.items[c]) && FileBy(s, a, f, s.db.files[f], after.files[f])
    ensures Columns(s, a, after)
  {
    OneItem(s, a, after, c);
    OneFile(s, a, after, f);
  }

  /** One item changes. */
  lemma ItemColumns(s: State, a: Action, after: Db, c: ItemId)
    requires c in s.db.items && c in after.items && after.items == s.db.items[c := after.items[c]]
    requires after.files == s.db.files && ItemBy(s, a, c, s.db.items[c], after.items[c])
    ensures Columns(s, a, after)
  {
    OneItem(s, a, after, c);
  }

  // ----- Step by step ------------------------------------------------------------------

  lemma UploadColumns(s: State, a: Action)
    requires IsUpload(a)
    ensures Columns(s, a, UploadStep(s, a).db)
  {
    UploadTables(s, a);
    if UploadStep(s, a).db == s.db { NoColumn(s, a, s.db); }
  }

  lemma CloseColumns(s: State, a: Action)
    requires Inv(s) && a.CloseScan?
    ensures Columns(s, a, ScanStep(s, a).db)
  {
    CloseScanTables(s, a.pid, a.commit);
    var after := ScanStep(s, a).db;
    if after == s.db {
      NoColumn(s, a, s.db);
    } else {
      assert ProcOk(s, a.pid, s.procs[a.pid]);
      var p := s.procs[a.pid].lease.payload;
      HeldFile(s.db, a.pid, s.procs[a.pid].lease);
      CloseCommitted(s, a.pid, a.commit);
      assert TablesOk(s.db);
      ColumnsOf(s, a, after, p.contentId, p.fileId);
    }
  }

  lemma CloseCommitted(s: State, pid: WorkerId, commit: bool)
    requires ScanStep(s, CloseScan(pid, commit)).db != s.db
    ensures commit
  {
  }

  lemma OtherScanColumns(s: State, a: Action)
    requires IsScan(a) && !a.CloseScan?
    ensures Columns(s, a, ScanStep(s, a).db)
  {
    NoColumn(s, a, ScanStep(s, a).db);
  }

  /** A publication by any of the three, as far as columns go. */
  lemma PublishedColumns(db: Db, intent: Intent, row: Row, target: Location, now: Time)
    requires PublishTx(db, intent, row, target, now).Some?
    ensures row.contentId in db.items && row.fileId in db.files
    ensures var after := PublishTx(db, intent, row, target, now).value;
      var item := db.items[row.contentId];
      && row.contentId in after.items && row.fileId in after.files
      && after.items == db.items[row.contentId := after.items[row.contentId]]
      && after.files == db.files[row.fileId := after.files[row.fileId]]
      && after.items[row.contentId] == item.(
           status := Published, publishedAt := Some(if item.publishedAt.Some? then item.publishedAt.value else now),
           hiddenAt := after.items[row.contentId].hiddenAt)
      && (after.items[row.contentId].hiddenAt.Some? ==> after.items[row.contentId].hiddenAt == item.hiddenAt)
      && item.status in {PendingScan, PendingModeration, Approved}
      && after.files[row.fileId] == db.files[row.fileId].(location := target, scan := Clean)
      && (!intent.ByScan? ==> db.files[row.fileId].scan == Clean)
  {
  }

  lemma PublishCommitted(s: State, a: Action)
    requires a.Publish? && PromotionStep(s, a).db != s.db
    ensures a.commit
  {
  }

  lemma PromotionColumns(s: State, a: Action)
    requires Inv(s) && IsPromotion(a)
    ensures Columns(s, a, PromotionStep(s, a).db)
  {
    PromotionTables(s, a);
    var after := PromotionStep(s, a).db;
    if after == s.db {
      NoColumn(s, a, s.db);
    } else {
      PublishCommitted(s, a);
      var p := s.procs[a.pid];
      ReadyColumns(s, a.pid);
      PublishedColumns(s.db, p.intent, p.row, p.target, a.now);
      ColumnsOf(s, a, after, p.row.contentId, p.row.fileId);
    }
  }

  /** A publisher's target is the private key of its item and file; a clean file is there already. */
  lemma ReadyColumns(s: State, pid: WorkerId)
    requires Inv(s) && pid in s.procs && s.procs[pid].Ready?
    ensures var p := s.procs[pid];
      && p.row.fileId in s.db.files && s.db.files[p.row.fileId].contentId == p.row.contentId
      && p.target == Location(PrivateBucket, ContentKey(p.row.contentId, p.row.fileId))
      && (p.intent.ByScan? ==> s.db.files[p.row.fileId].scan == AwaitingScan)
      && (!p.intent.ByScan? ==> s.db.files[p.row.fileId].location == p.target)
  {
    ReadyRow(s, pid);
    assert ProcOk(s, pid, s.procs[pid]);
  }

  lemma ReviewColumns(s: State, a: Action)
    requires a.ReviewItem?
    ensures Columns(s, a, TablesStep(s, a).db)
  {
    var tx := ReviewContent(s.db, a.contentId, a.review, a.now);
    if tx.Some? { ItemColumns(s, a, tx.value, a.contentId); } else { NoColumn(s, a, s.db); }
  }

  lemma UpdateColumns(s: State, a: Action)
    requires a.UpdateItem?
    ensures Columns(s, a, TablesStep(s, a).db)
  {
    var tx := UpdateOwned(s.db, a.owner, a.contentId, a.input);
    if tx.Some? {
      OwnerEditColumns(s.db, a.owner, a.contentId, a.input);
      ItemColumns(s, a, tx.value, a.contentId);
    } else {
      NoColumn(s, a, s.db);
    }
  }

  lemma DeleteColumns(s: State, a: Action)
    requires a.DeleteItem?
    ensures Columns(s, a, TablesStep(s, a).db)
  {
    var tx := DeleteOwned(s.db, a.owner, a.contentId, a.now);
    if tx.Some? { ItemColumns(s, a, tx.value, a.contentId); } else { NoColumn(s, a, s.db); }
  }

  lemma RescanColumns(s: State, a: Action)
    requires TablesOk(s.db) && a.Rescan?
    ensures Columns(s, a, TablesStep(s, a).db)
  {
    var tx := RescanAdminFile(s.db, a.fileId, a.jobId);
    if tx.Some? {
      ColumnsOf(s, a, tx.value, s.db.files[a.fileId].contentId, a.fileId);
    } else {
      NoColumn(s, a, s.db);
    }
  }

  lemma TablesColumns(s: State, a: Action)
    requires TablesOk(s.db)
    ensures Columns(s, a, TablesStep(s, a).db)
  {
    if a.ReviewItem? { ReviewColumns(s, a); }
    else if a.UpdateItem? { UpdateColumns(s, a); }
    else if a.DeleteItem? { DeleteColumns(s, a); }
    else if a.Rescan? { RescanColumns(s, a); }
    else { NoColumn(s, a, TablesStep(s, a).db); }
  }

  /** Every step changes a column only through the action that may, and to the value it may. */
  lemma StepColumns(s: State, a: Action)
    requires Inv(s)
    ensures Columns(s, a, Apply(s, a).db)
  {
    if IsUpload(a) { UploadColumns(s, a); }
    else if a.CloseScan? { CloseColumns(s, a); }
    else if IsScan(a) { OtherScanColumns(s, a); }
    else if IsPromotion(a) { PromotionColumns(s, a); }
    else if IsSync(a) { SyncKeepsRows(s, a); NoColumn(s, a, Apply(s, a).db); }
    else if a.Crash? { NoColumn(s, a, s.db); }
    else { TablesColumns(s, a); }
  }

  // ----- Who is promoted ---------------------------------------------------------------

  predicate Waiting(db: Db, c: ItemId, statuses: set<Status>) {
    && c in db.items && db.items[c].deletedAt == None && db.items[c].status in statuses
    && db.items[c].fileId in db.files && db.files[db.items[c].fileId].scan == Clean
  }

  /** The reconciling worker takes up what waits for moderation with a clean file, and the admin what may be approved. */
  lemma CandidateIffWaiting(s: State, pid: WorkerId, c: ItemId)
    requires pid !in s.procs
    ensures pid in PromotionStep(s, LoadCandidate(pid, c)).procs <==> Waiting(s.db, c, {PendingModeration})
    ensures pid in PromotionStep(s, LoadApproval(pid, c)).procs <==> Waiting(s.db, c, {PendingModeration, Approved})
  {
  }

  // ----- New rows ----------------------------------------------------------------------

  lemma ScanAddsNone(s: State, a: Action)
    requires IsScan(a)
    ensures ScanStep(s, a).db.items.Keys == s.db.items.Keys && ScanStep(s, a).db.files.Keys == s.db.files.Keys
  {
    if a.CloseScan? { CloseScanTables(s, a.pid, a.commit); }
  }

  lemma PromotionAddsNone(s: State, a: Action)
    requires IsPromotion(a)
    ensures PromotionStep(s, a).db.items.Keys == s.db.items.Keys
    ensures PromotionStep(s, a).db.files.Keys == s.db.files.Keys
  {
    PromotionTables(s, a);
    if PromotionStep(s, a).db != s.db {
      var p := s.procs[a.pid];
      PublishedColumns(s.db, p.intent, p.row, p.target, a.now);
    }
  }

  lemma TablesAddNone(s: State, a: Action)
    ensures TablesStep(s, a).db.items.Keys == s.db.items.Keys && TablesStep(s, a).db.files.Keys == s.db.files.Keys
  {
  }

  /** Only uploads insert items and files. */
  lemma NoNewRows(s: State, a: Action)
    requires !IsUpload(a)
    ensures Apply(s, a).db.items.Keys == s.db.items.Keys && Apply(s, a).db.files.Keys == s.db.files.Keys
  {
    if IsScan(a) { ScanAddsNone(s, a); }
    else if IsPromotion(a) { PromotionAddsNone(s, a); }
    else if IsSync(a) { SyncKeepsRows(s, a); }
    else { TablesAddNone(s, a); }
  }

  // ----- Over runs ---------------------------------------------------------------------

  /** No action is the owner's own edit of the item. */
  predicate Unedited(actions: seq<Action>, c: ItemId) {
    forall i | 0 <= i < |actions| :: !(actions[i].UpdateItem? && actions[i].contentId == c)
  }

  /** No action is an edit that makes the item public. */
  predicate NeverMadePublic(actions: seq<Action>, c: ItemId) {
    forall i | 0 <= i < |actions| ::
      !(actions[i].UpdateItem? && actions[i].contentId == c && actions[i].input.visibility == Some(Public))
  }

  lemma {:induction false} TextUntilEdited(s: State, actions: seq<Action>, c: ItemId)
    requires Inv(s) && c in s.db.items && Unedited(actions, c)
    ensures var db := Run(s, actions).db;
      c in db.items && db.items[c].meta == s.db.items[c].meta && db.items[c].visibility == s.db.items[c].visibility
    decreases |actions|
  {
    if |actions| > 0 {
      var before := actions[..|actions| - 1];
      assert Unedited(before, c);
      TextUntilEdited(s, before, c);
      RunKeepsFrom(s, before);
      StepColumns(Run(s, before), actions[|actions| - 1]);
    }
  }

  /** A private item stays private, and out of the public's sight, until its owner makes it public. */
  lemma {:induction false} PrivateUntilMadePublic(s: State, actions: seq<Action>, c: ItemId)
    requires Inv(s) && c in s.db.items && s.db.items[c].visibility == Private && NeverMadePublic(actions, c)
    ensures var db := Run(s, actions).db;
      c in db.items && db.items[c].visibility == Private && !Visible(db, c)
    decreases |actions|
  {
    if |actions| > 0 {
      var before := actions[..|actions| - 1];
      assert NeverMadePublic(before, c);
      PrivateUntilMadePublic(s, before, c);
      RunKeepsFrom(s, before);
      StepColumns(Run(s, before), actions[|actions| - 1]);
    }
  }

  predicate SameBytes(db: Db, c: ItemId, d: ItemId)
    requires c in db.items && d in db.items && db.items[c].fileId in db.files && db.items[d].fileId in db.files
  {
    && db.items[c].author == db.items[d].author
    && db.files[db.items[c].fileId].hash == db.files[db.items[d].fileId].hash
  }

  /** No author has the same bytes in two items that were not deleted. */
  ghost predicate NoCopies(db: Db)
    requires TablesOk(db)
  {
    forall c, d | c in db.items && d in db.items && c != d && SameBytes(db, c, d) ::
      db.items[c].deletedAt.Some? || db.items[d].deletedAt.Some?
  }

  lemma InsertKeepsNoCopies(db: Db, u: Upload, location: Location, hash: Bytes)
    requires DbInv(db) && NoCopies(db) && CreateUpload(db, u, location, hash).Some?
    requires TablesOk(CreateUpload(db, u, location, hash).value)
    ensures NoCopies(CreateUpload(db, u, location, hash).value)
  {
    var after := CreateUpload(db, u, location, hash).value;
    forall c, d | c in after.items && d in after.items && c != d && SameBytes(after, c, d)
      ensures after.items[c].deletedAt.Some? || after.items[d].deletedAt.Some?
    {
      if c in db.items && d in db.items {
        assert SameBytes(db, c, d);
      } else {
        var there := if c in db.items then c else d;
        assert db.files[db.items[there].fileId].contentId == there;
        assert Coherent(db.items[there], db.files[db.items[there].fileId].scan);
      }
    }
  }

  /** Author and bytes of an item stay, and so does the mark of its deletion. */
  lemma ItemStays(s: State, a: Action, c: ItemId)
    requires Inv(s) && c in s.db.items
    ensures var after := Apply(s, a).db;
      && c in after.items && s.db.items[c].fileId in s.db.files && s.db.items[c].fileId in after.files
      && after.items[c].author == s.db.items[c].author && after.items[c].fileId == s.db.items[c].fileId
      && after.files[s.db.items[c].fileId].hash == s.db.files[s.db.items[c].fileId].hash
      && (s.db.items[c].deletedAt.Some? ==> after.items[c].deletedAt.Some?)
  {
    StepColumns(s, a);
    var f := s.db.items[c].fileId;
    assert ItemBy(s, a, c, s.db.items[c], Apply(s, a).db.items[c]);
    assert FileBy(s, a, f, s.db.files[f], Apply(s, a).db.files[f]);
  }

  lemma PairStays(s: State, a: Action, c: ItemId, d: ItemId)
    requires Inv(s) && NoCopies(s.db) && TablesOk(Apply(s, a).db) && c in s.db.items && d in s.db.items && c != d
    requires c in Apply(s, a).db.items && d in Apply(s, a).db.items && SameBytes(Apply(s, a).db, c, d)
    ensures Apply(s, a).db.items[c].deletedAt.Some? || Apply(s, a).db.items[d].deletedAt.Some?
  {
    ItemStays(s, a, c);
    ItemStays(s, a, d);
    assert SameBytes(s.db, c, d);
  }

  lemma OtherStepKeepsNoCopies(s: State, a: Action)
    requires Inv(s) && NoCopies(s.db) && !IsUpload(a) && TablesOk(Apply(s, a).db)
    ensures NoCopies(Apply(s, a).db)
  {
    NoNewRows(s, a);
    var after := Apply(s, a).db;
    forall c, d | c in after.items && d in after.items && c != d && SameBytes(after, c, d)
      ensures after.items[c].deletedAt.Some? || after.items[d].deletedAt.Some?
    {
      PairStays(s, a, c, d);
    }
  }

  lemma {:induction false} RunHasNoCopies(actions: seq<Action>)
    ensures TablesOk(Run(START, actions).db) && NoCopies(Run(START, actions).db)
    decreases |actions|
  {
    RunKeeps(actions);
    if |actions| > 0 {
      var before, a := actions[..|actions| - 1], actions[|actions| - 1];
      var s := Run(START, before);
      RunHasNoCopies(before);
      RunKeeps(before);
      if IsUpload(a) { UploadKeepsNoCopies(s, a); } else { OtherStepKeepsNoCopies(s, a); }
    }
  }

  lemma UploadKeepsNoCopies(s: State, a: Action)
    requires Inv(s) && NoCopies(s.db) && IsUpload(a) && TablesOk(Apply(s, a).db)
    ensures NoCopies(Apply(s, a).db)
  {
    UploadTables(s, a);
    if Apply(s, a).db != s.db {
      InsertKeepsNoCopies(s.db, a.upload, Quarantined(s.procs[a.pid].upload), s.procs[a.pid].hash);
    }
  }

  /** In every run, two items of one author with the same bytes are never both there: one was deleted. */
  lemma {:induction false} NoTwoCopies(actions: seq<Action>, c: ItemId, d: ItemId)
    ensures var db := Run(START, actions).db;
      c in db.items && d in db.items && c != d && db.items[c].author == db.items[d].author
      && db.items[c].deletedAt == None && db.items[d].deletedAt == None ==>
        && db.items[c].fileId in db.files && db.items[d].fileId in db.files
        && db.files[db.items[c].fileId].hash != db.files[db.items[d].fileId].hash
  {
    RunHasNoCopies(actions);
    var db := Run(START, actions).db;
    if c in db.items && d in db.items && c != d && db.items[c].author == db.items[d].author {
      assert SameBytes(db, c, d) ==> db.items[c].deletedAt.Some? || db.items[d].deletedAt.Some?;
    }
  }

  /** An upload appears as the owner gave it: waiting for its scan, with the stored bytes, and with one job. */
  lemma UploadedAs(s: State, pid: WorkerId, u: Upload)
    requires u.contentId !in s.db.items && u.contentId in Apply(s, InsertUpload(pid, u, true)).db.items
    ensures var t := Apply(s, InsertUpload(pid, u, true));
      var item := t.db.items[u.contentId];
      && item.author == u.author && item.meta == u.meta && item.visibility == u.visibility
      && item.status == PendingScan && item.publishedAt == None && item.hiddenAt == None && item.deletedAt == None
      && item.fileId == u.fileId && u.fileId !in s.db.files && u.fileId in t.db.files
      && pid in s.procs && s.procs[pid].Storing?
      && t.db.files[u.fileId] ==
           File(u.contentId, Location(QuarantineBucket, UploadKey(s.procs[pid].upload)), s.procs[pid].hash, AwaitingScan)
      && u.jobId !in s.db.scans && u.jobId in t.db.scans
      && t.db.scans[u.jobId].queue == FileScanQueue && t.db.scans[u.jobId].status == Pending
  {
  }
}
