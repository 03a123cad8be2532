/**
  The tables behind content publication and the SQL transactions that change them.

  Each transaction is a function from tables to tables; None means that a WHERE clause
  matched no row and the transaction rolled back. One upload inserts an item together with
  its only file, so the "latest file of the item" subqueries are the item's `fileId`.
 */
module Publication {
  import opened Wrappers
  import opened Jobs

  type ItemId = nat
  type FileId = nat
  type UserId = nat
  type Bytes = nat  // the content of a stored object, up to equality (its SHA-256 and size)

  datatype Bucket = QuarantineBucket | PrivateBucket

  /** "uploads/<user>/<uuid>.bee" and "content/<contentID>/<fileID>.bee". */
  datatype Key = UploadKey(upload: nat) | ContentKey(contentId: ItemId, fileId: FileId)

  datatype Location = Location(bucket: Bucket, key: Key)

  function Quarantined(upload: nat): Location {
    Location(QuarantineBucket, UploadKey(upload))
  }

  function Promoted(contentId: ItemId, fileId: FileId): Location {
    Location(PrivateBucket, ContentKey(contentId, fileId))
  }

  datatype Status =
    PendingScan | ScanFailed | PendingModeration | Approved | Published | Rejected | Hidden | Deleted

  datatype Visibility = Public | Private

  datatype Meta = Meta(title: string, description: string, nsfw: bool, tags: seq<string>)

  datatype Item = Item(
    author: UserId,
    meta: Meta,
    visibility: Visibility,
    status: Status,
    publishedAt: Option<Time>,
    hiddenAt: Option<Time>,
    deletedAt: Option<Time>,
    fileId: FileId)

  datatype ScanStatus = AwaitingScan | Clean | Suspicious | Infected | ScanErrored

  datatype File = File(contentId: ItemId, location: Location, hash: Bytes, scan: ScanStatus)

  datatype ScanPayload = ScanPayload(contentId: ItemId, fileId: FileId, location: Location)

  datatype SearchAction = Upsert | Delete

  datatype SearchPayload = SearchPayload(contentId: ItemId, action: SearchAction)

  datatype Db = Db(
    items: map<ItemId, Item>,
    files: map<FileId, File>,
    scans: map<JobId, Job<ScanPayload>>,
    search: seq<Job<SearchPayload>>)

  function NewScan(contentId: ItemId, fileId: FileId, location: Location): Job<ScanPayload> {
    NewJob(FileScanQueue, ScanPayload(contentId, fileId, location), None, DEFAULT_MAX_ATTEMPTS)
  }

  function NewSearch(contentId: ItemId, action: SearchAction): Job<SearchPayload> {
    NewJob(SearchQueue, SearchPayload(contentId, action), None, DEFAULT_MAX_ATTEMPTS)
  }

  /** The five-field visibility test of ListPublished and GetContentSearchDocument. */
  predicate Visible(db: Db, contentId: ItemId) {
    && contentId in db.items
    && var item := db.items[contentId];
    && item.status == Published
    && item.visibility == Public
    && item.deletedAt == None
    && item.hiddenAt == None
    && item.publishedAt != None
  }

  /** What GetContentSearchDocument returns: the text of an item that the public may see. */
  function DocOf(db: Db, contentId: ItemId): Option<Meta> {
    if Visible(db, contentId) then Some(db.items[contentId].meta) else None
  }

  /** The WHERE clause of a download: who may ask is decided by the caller. */
  predicate DownloadTarget(db: Db, contentId: ItemId) {
    && contentId in db.items
    && var item := db.items[contentId];
    && item.status == Published
    && item.deletedAt == None
    && item.hiddenAt == None
    && item.fileId in db.files
    && db.files[item.fileId].scan == Clean
    && db.files[item.fileId].location.bucket != QuarantineBucket
  }

  // ----- Upload ------------------------------------------------------------------------

  predicate DuplicateUpload(db: Db, author: UserId, hash: Bytes) {
    exists f | f in db.files ::
      && db.files[f].hash == hash
      && db.files[f].contentId in db.items
      && db.items[db.files[f].contentId].author == author
      && db.items[db.files[f].contentId].status != Deleted
  }

  datatype Upload = Upload(contentId: ItemId, fileId: FileId, jobId: JobId,
                           author: UserId, meta: Meta, visibility: Visibility)

  /** UploadRepository.Create; the generated ids are fresh. */
  function CreateUpload(db: Db, u: Upload, location: Location, hash: Bytes): Option<Db> {
    if u.contentId in db.items || u.fileId in db.files || u.jobId in db.scans
       || DuplicateUpload(db, u.author, hash) then None
    else Some(db.(
      items := db.items[u.contentId := Item(u.author, u.meta, u.visibility, PendingScan, None, None, None, u.fileId)],
      files := db.files[u.fileId := File(u.contentId, location, hash, AwaitingScan)],
      scans := db.scans[u.jobId := NewScan(u.contentId, u.fileId, location)]))
  }

  // ----- Scan outcomes -----------------------------------------------------------------

  function CompleteFileScan(db: Db, jobId: JobId, fileId: FileId, contentId: ItemId,
                            scan: ScanStatus, status: Status): Option<Db> {
    if fileId !in db.files || contentId !in db.items || jobId !in db.scans then None
    else Some(db.(
      files := db.files[fileId := db.files[fileId].(scan := scan)],
      items := db.items[contentId := db.items[contentId].(status := status)],
      scans := db.scans[jobId := MarkedSucceeded(db.scans[jobId])]))
  }

  /** publishCleanContentTx, the part that PublishCleanContent and CompleteFileScanAndPublish share. */
  function PublishClean(db: Db, fileId: FileId, contentId: ItemId, target: Location, now: Time): Option<Db> {
    if fileId !in db.files || db.files[fileId].contentId != contentId || db.files[fileId].scan != Clean
       || contentId !in db.items || db.items[contentId].status !in {PendingScan, PendingModeration}
       || db.items[contentId].deletedAt != None then None
    else
      var item := db.items[contentId];
      Some(db.(
        files := db.files[fileId := db.files[fileId].(location := target)],
        items := db.items[contentId :=
          item.(status := Published, publishedAt := Some(item.publishedAt.GetOr(now)), hiddenAt := None)],
        search := db.search + [NewSearch(contentId, Upsert)]))
  }

  function CompleteFileScanAndPublish(db: Db, jobId: JobId, fileId: FileId, contentId: ItemId,
                                      scan: ScanStatus, target: Location, now: Time): Option<Db> {
    if fileId !in db.files || jobId !in db.scans then None
    else
      var scanned := db.(files := db.files[fileId := db.files[fileId].(scan := scan, location := target)]);
      match PublishClean(scanned, fileId, contentId, target, now)
      case None => None
      case Some(published) => Some(published.(scans := db.scans[jobId := MarkedSucceeded(db.scans[jobId])]))
  }

  /** RescanAdminFile: reopens the scan of a file that did not come out clean. */
  function RescanAdminFile(db: Db, fileId: FileId, jobId: JobId): Option<Db> {
    if fileId !in db.files || db.files[fileId].contentId !in db.items || jobId in db.scans
       || db.files[fileId].scan !in {ScanErrored, Suspicious, Infected} then None
    else
      var file := db.files[fileId];
      var item := db.items[file.contentId];
      Some(db.(
        files := db.files[fileId := file.(scan := AwaitingScan)],
        items := db.items[file.contentId := item.(status := PendingScan, publishedAt := None, hiddenAt := None)],
        scans := db.scans[jobId := NewScan(file.contentId, fileId, file.location)]))
  }

  // ----- Moderation --------------------------------------------------------------------

  /** ModerationRepository.Approve; it takes both ids from the candidate and checks no deleted_at. */
  function Approve(db: Db, fileId: FileId, contentId: ItemId, target: Location, now: Time): Option<Db> {
    if fileId !in db.files || db.files[fileId].scan != Clean
       || contentId !in db.items || db.items[contentId].status !in {PendingModeration, Approved} then None
    else
      var item := db.items[contentId];
      Some(db.(
        files := db.files[fileId := db.files[fileId].(location := target)],
        items := db.items[contentId := item.(status := Published, publishedAt := Some(item.publishedAt.GetOr(now)))],
        search := db.search + [NewSearch(contentId, Upsert)]))
  }

  datatype Review = Reject | Hide | Restore

  function AllowedStatuses(review: Review): set<Status> {
    match review
    case Reject => {PendingModeration, Approved, ScanFailed}
    case Hide => {Published, Approved}
    case Restore => {Hidden}
  }

  function Reviewed(item: Item, review: Review, now: Time): Item {
    match review
    case Reject => item.(status := Rejected, hiddenAt := None, publishedAt := None)
    case Hide => item.(status := Hidden, hiddenAt := Some(item.hiddenAt.GetOr(now)))
    case Restore => item.(status := Published, hiddenAt := None, publishedAt := Some(item.publishedAt.GetOr(now)))
  }

  function ReviewContent(db: Db, contentId: ItemId, review: Review, now: Time): Option<Db> {
    if contentId !in db.items || db.items[contentId].deletedAt != None
       || db.items[contentId].status !in AllowedStatuses(review) then None
    else
      var item := db.items[contentId];
      if review == Restore && (item.fileId !in db.files || db.files[item.fileId].scan != Clean) then None
      else Some(db.(
        items := db.items[contentId := Reviewed(item, review, now)],
        search := db.search + [NewSearch(contentId, if review == Restore then Upsert else Delete)]))
  }

  // ----- The owner ---------------------------------------------------------------------

  datatype OwnerUpdate = OwnerUpdate(title: Option<string>, description: Option<string>, nsfw: Option<bool>,
                                     tags: Option<seq<string>>, visibility: Option<Visibility>)

  predicate UpdateNeedsModeration(status: Status, input: OwnerUpdate) {
    && status in {Approved, Published, Rejected, Hidden}
    && (input.title != None || input.description != None || input.nsfw != None || input.tags != None)
  }

  function UpdatedMeta(meta: Meta, input: OwnerUpdate): Meta {
    Meta(input.title.GetOr(meta.title), input.description.GetOr(meta.description),
         input.nsfw.GetOr(meta.nsfw), input.tags.GetOr(meta.tags))
  }

  /** UpdateOwned: the search job is chosen by the two-field test (status, visibility). */
  function UpdateOwned(db: Db, owner: UserId, contentId: ItemId, input: OwnerUpdate): Option<Db> {
    if contentId !in db.items || db.items[contentId].author != owner
       || db.items[contentId].deletedAt != None || db.items[contentId].status == Deleted then None
    else
      var item := db.items[contentId];
      var review := UpdateNeedsModeration(item.status, input);
      if review && (item.fileId !in db.files || db.files[item.fileId].scan != Clean) then None
      else
        var visibility := input.visibility.GetOr(item.visibility);
        var edited := item.(meta := UpdatedMeta(item.meta, input), visibility := visibility);
        var saved :=
          if review then edited.(status := PendingModeration, publishedAt := None, hiddenAt := None) else edited;
        var was := item.status == Published && item.visibility == Public;
        var will := saved.status == Published && visibility == Public;
        Some(db.(
          items := db.items[contentId := saved],
          search := db.search + (if was && !will then [NewSearch(contentId, Delete)]
                                 else if will then [NewSearch(contentId, Upsert)] else [])))
  }

  function DeleteOwned(db: Db, owner: UserId, contentId: ItemId, now: Time): Option<Db> {
    if contentId !in db.items || db.items[contentId].author != owner
       || db.items[contentId].deletedAt != None || db.items[contentId].status == Deleted then None
    else
      var item := db.items[contentId];
      Some(db.(
        items := db.items[contentId :=
          item.(status := Deleted, publishedAt := None, hiddenAt := None, deletedAt := Some(now))],
        search := db.search +
          (if item.status == Published && item.visibility == Public then [NewSearch(contentId, Delete)] else [])))
  }

  /** Likes, comments and images of an existing item refresh its search document. */
  function RefreshSearch(db: Db, contentId: ItemId): Option<Db> {
    if contentId !in db.items then None
    else Some(db.(search := db.search + [NewSearch(contentId, Upsert)]))
  }

  // ----- The table invariant -----------------------------------------------------------

  ghost predicate TablesOk(db: Db) {
    && (forall c | c in db.items :: db.items[c].fileId in db.files && db.files[db.items[c].fileId].contentId == c)
    && (forall f | f in db.files :: db.files[f].contentId in db.items && db.items[db.files[f].contentId].fileId == f)
  }

  /** A clean file is in the private bucket under its own key; every other file is in quarantine. */
  predicate Placed(fileId: FileId, file: File) {
    if file.scan == Clean then file.location == Promoted(file.contentId, fileId)
    else file.location.bucket == QuarantineBucket && file.location.key.UploadKey?
  }

  predicate PayloadMatches(payload: ScanPayload, file: File) {
    payload.contentId == file.contentId && payload.location == file.location
  }

  /** An unfinished scan job describes the row of a file that still awaits its scan. */
  ghost predicate ScanRowOk(db: Db, j: JobId)
    requires j in db.scans
  {
    Open(db.scans[j]) ==>
      && db.scans[j].payload.fileId in db.files
      && db.files[db.scans[j].payload.fileId].scan == AwaitingScan
      && PayloadMatches(db.scans[j].payload, db.files[db.scans[j].payload.fileId])
  }

  ghost predicate OpenScanOf(db: Db, j: JobId, f: FileId) {
    j in db.scans && Open(db.scans[j]) && db.scans[j].payload.fileId == f
  }

  ghost predicate ScansOk(db: Db) {
    && (forall j | j in db.scans :: ScanRowOk(db, j))
    && (forall f, i, j | OpenScanOf(db, i, f) && OpenScanOf(db, j, f) :: i == j)
    && (forall f | f in db.files && db.files[f].scan == AwaitingScan :: exists j :: OpenScanOf(db, j, f))
  }

  /** How an item's status, its timestamps and its file's scan status go together. */
  predicate Coherent(item: Item, scan: ScanStatus) {
    && (item.publishedAt != None <==> item.status in {Published, Hidden})
    && (item.hiddenAt != None <==> item.status == Hidden)
    && (item.deletedAt != None ==> item.status in {Deleted, PendingScan, ScanFailed})
    && (item.status == Deleted ==> item.deletedAt != None)
    && (match scan
        case AwaitingScan => item.status in {PendingScan, Deleted}
        case Clean => item.status in {PendingModeration, Published, Hidden, Rejected, Deleted}
        case _ => item.status in {ScanFailed, Rejected, Deleted})
  }

  ghost predicate DbInv(db: Db) {
    && TablesOk(db)
    && (forall f | f in db.files :: Placed(f, db.files[f]))
    && ScansOk(db)
    && (forall c | c in db.items :: Coherent(db.items[c], db.files[db.items[c].fileId].scan))
  }

  const EMPTY: Db := Db(map[], map[], map[], [])

  lemma EmptyInv()
    ensures DbInv(EMPTY)
  {
  }
}
