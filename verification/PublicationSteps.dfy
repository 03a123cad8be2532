/**
  What one step can and cannot do to the rows: identity, deletion and cleanliness are
  permanent, published text never changes in place, and visibility changes are announced.
 */
module PublicationSteps {
  import opened Wrappers
  import opened Jobs
  import opened Publication
  import opened PublicationProofs
  import opened Protocol
  import opened ProtocolProofs

  predicate ItemMoves(before: Item, after: Item) {
    && after.author == before.author && after.fileId == before.fileId
    && (before.deletedAt != None ==> after.deletedAt == before.deletedAt)
    && (before.status == Published && after.status == Published ==> after.meta == before.meta)
  }

  predicate FileMoves(before: File, after: File) {
    && after.contentId == before.contentId && after.hash == before.hash
    && (before.scan == Clean ==> after == before)
  }

  ghost predicate Moves(db: Db, after: Db) {
    && (forall c | c in db.items :: c in after.items && ItemMoves(db.items[c], after.items[c]))
    && (forall f | f in db.files :: f in after.files && FileMoves(db.files[f], after.files[f]))
    && Announced(db, after)
  }

  lemma NoMove(db: Db, after: Db)
    requires after.items == db.items && after.files == db.files && after.search == db.search
    ensures Moves(db, after)
  {
    forall c ensures DocOf(after, c) == DocOf(db, c) {}
  }

  /** A new item is not visible yet, so nothing is announced. */
  lemma CreateUploadMoves(db: Db, u: Upload, location: Location, hash: Bytes)
    requires CreateUpload(db, u, location, hash).Some?
    ensures Moves(db, CreateUpload(db, u, location, hash).value)
  {
    var after := CreateUpload(db, u, location, hash).value;
    forall c ensures DocOf(after, c) == DocOf(db, c) {}
  }

  /** The only upload step that changes the tables is a committed insertion. */
  lemma UploadTables(s: State, a: Action)
    requires IsUpload(a)
    ensures var db := UploadStep(s, a).db;
      db == s.db || (a.InsertUpload? && a.pid in s.procs && s.procs[a.pid].Storing?
        && CreateUpload(s.db, a.upload, Quarantined(s.procs[a.pid].upload), s.procs[a.pid].hash) == Some(db))
  {
  }

  lemma UploadMoves(s: State, a: Action)
    requires IsUpload(a)
    ensures Moves(s.db, UploadStep(s, a).db)
  {
    UploadTables(s, a);
    if UploadStep(s, a).db == s.db {
      NoMove(s.db, s.db);
    } else {
      CreateUploadMoves(s.db, a.upload, Quarantined(s.procs[a.pid].upload), s.procs[a.pid].hash);
    }
  }

  lemma CompleteFileScanMoves(db: Db, j: JobId, verdict: ScanStatus)
    requires DbInv(db) && j in db.scans && Open(db.scans[j])
    ensures var p := db.scans[j].payload;
      var tx := CompleteFileScan(db, j, p.fileId, p.contentId, verdict, ScanFailed);
      tx.Some? && Moves(db, tx.value)
  {
    CompleteFileScanAnnounces(db, j, verdict);
    assert ScanRowOk(db, j);
  }

  /** Closing a scan changes the tables only as its transaction does. */
  lemma CloseScanTables(s: State, pid: WorkerId, commit: bool)
    ensures var db := ScanStep(s, CloseScan(pid, commit)).db;
      db == s.db || (pid in s.procs && s.procs[pid].Closing?
        && var lease := s.procs[pid].lease;
           CompleteFileScan(s.db, lease.jobId, lease.payload.fileId, lease.payload.contentId,
                            s.procs[pid].verdict, ScanFailed) == Some(db))
  {
  }

  lemma CloseScanMoves(s: State, pid: WorkerId, commit: bool)
    requires Inv(s)
    ensures Moves(s.db, ScanStep(s, CloseScan(pid, commit)).db)
  {
    CloseScanTables(s, pid, commit);
    if ScanStep(s, CloseScan(pid, commit)).db == s.db {
      NoMove(s.db, s.db);
    } else {
      assert ProcOk(s, pid, s.procs[pid]);
      CompleteFileScanMoves(s.db, s.procs[pid].lease.jobId, s.procs[pid].verdict);
    }
  }

  lemma OtherScanStepsMove(s: State, a: Action)
    requires IsScan(a) && !a.CloseScan?
    ensures Moves(s.db, ScanStep(s, a).db)
  {
    NoMove(s.db, ScanStep(s, a).db);
  }

  /** The three publishing transactions, as far as items, files and the search queue go. */
  lemma PublishTxFrame(db: Db, intent: Intent, row: Row, target: Location, now: Time)
    requires PublishTx(db, intent, row, target, now).Some?
    ensures var after := PublishTx(db, intent, row, target, now).value;
      && row.contentId in db.items && row.fileId in db.files && row.contentId in after.items
      && after.items == db.items[row.contentId := after.items[row.contentId]]
      && after.files == db.files[row.fileId := after.files[row.fileId]]
      && after.search == db.search + [NewSearch(row.contentId, Upsert)]
      && ItemMoves(db.items[row.contentId].(status := Rejected), after.items[row.contentId])
      && db.items[row.contentId].status != Published
      && after.files[row.fileId] ==
           db.files[row.fileId].(location := target, scan := if intent.ByScan? then Clean else db.files[row.fileId].scan)
  {
  }

  /** What a publisher's row has come to: still waiting for its scan, or clean and where it belongs. */
  lemma ReadyRow(s: State, pid: WorkerId)
    requires Inv(s) && pid in s.procs && s.procs[pid].Ready?
    ensures var p := s.procs[pid];
      && p.row.fileId in s.db.files
      && (p.intent.ByScan? ==> s.db.files[p.row.fileId].scan == AwaitingScan)
      && (!p.intent.ByScan? ==> s.db.files[p.row.fileId].location == p.target)
  {
    assert ProcOk(s, pid, s.procs[pid]);
    var p := s.procs[pid];
    if p.intent.ByScan? { HeldFile(s.db, pid, p.intent.lease); }
    assert Placed(p.row.fileId, s.db.files[p.row.fileId]);
  }

  lemma PublishTxMoves(db: Db, intent: Intent, row: Row, target: Location, now: Time)
    requires PublishTx(db, intent, row, target, now).Some? && row.fileId in db.files
    requires intent.ByScan? ==> db.files[row.fileId].scan == AwaitingScan
    requires !intent.ByScan? ==> db.files[row.fileId].location == target
    ensures Moves(db, PublishTx(db, intent, row, target, now).value)
  {
    PublishTxFrame(db, intent, row, target, now);
    PublishingAnnounces(db, PublishTx(db, intent, row, target, now).value, row.contentId);
  }

  /** Of the promotion steps only a committed publication changes the tables. */
  lemma PromotionTables(s: State, a: Action)
    requires IsPromotion(a)
    ensures var db := PromotionStep(s, a).db;
      db == s.db || (a.Publish? && a.pid in s.procs && s.procs[a.pid].Ready?
        && var p := s.procs[a.pid]; PublishTx(s.db, p.intent, p.row, p.target, a.now) == Some(db))
  {
  }

  lemma PromotionMoves(s: State, a: Action)
    requires Inv(s) && IsPromotion(a)
    ensures Moves(s.db, PromotionStep(s, a).db)
  {
    PromotionTables(s, a);
    if PromotionStep(s, a).db == s.db {
      NoMove(s.db, s.db);
    } else {
      ReadyRow(s, a.pid);
      var p := s.procs[a.pid];
      PublishTxMoves(s.db, p.intent, p.row, p.target, a.now);
    }
  }

  /** A transaction on one item that keeps the files. */
  lemma OneItemMoves(db: Db, after: Db, c: ItemId)
    requires Announced(db, after) && after.files == db.files
    requires c in db.items && c in after.items && after.items == db.items[c := after.items[c]]
    requires ItemMoves(db.items[c], after.items[c])
    ensures Moves(db, after)
  {
  }

  lemma ReviewMoves(db: Db, c: ItemId, review: Review, now: Time)
    requires DbInv(db) && ReviewContent(db, c, review, now).Some?
    ensures Moves(db, ReviewContent(db, c, review, now).value)
  {
    ReviewAnnounces(db, c, review, now);
    OneItemMoves(db, ReviewContent(db, c, review, now).value, c);
  }

  lemma UpdateOwnedMoves(db: Db, owner: UserId, c: ItemId, input: OwnerUpdate)
    requires DbInv(db) && UpdateOwned(db, owner, c, input).Some?
    ensures Moves(db, UpdateOwned(db, owner, c, input).value)
  {
    UpdateOwnedAnnounces(db, owner, c, input);
    OneItemMoves(db, UpdateOwned(db, owner, c, input).value, c);
  }

  lemma DeleteOwnedMoves(db: Db, owner: UserId, c: ItemId, now: Time)
    requires DbInv(db) && DeleteOwned(db, owner, c, now).Some?
    ensures Moves(db, DeleteOwned(db, owner, c, now).value)
  {
    DeleteOwnedAnnounces(db, owner, c, now);
    OneItemMoves(db, DeleteOwned(db, owner, c, now).value, c);
  }

  lemma RescanMoves(db: Db, f: FileId, j: JobId)
    requires DbInv(db) && RescanAdminFile(db, f, j).Some?
    ensures Moves(db, RescanAdminFile(db, f, j).value)
  {
    RescanAnnounces(db, f, j);
  }

  lemma RefreshMoves(db: Db, c: ItemId)
    requires RefreshSearch(db, c).Some?
    ensures Moves(db, RefreshSearch(db, c).value)
  {
    PublishingAnnounces(db, RefreshSearch(db, c).value, c);
    OneItemMoves(db, RefreshSearch(db, c).value, c);
  }

  lemma TablesStepMoves(s: State, a: Action)
    requires DbInv(s.db)
    ensures Moves(s.db, TablesStep(s, a).db)
  {
    NoMove(s.db, s.db);
    match a
    case ReviewItem(c, review, now) =>
      if ReviewContent(s.db, c, review, now).Some? { ReviewMoves(s.db, c, review, now); }
    case UpdateItem(owner, c, input) =>
      if UpdateOwned(s.db, owner, c, input).Some? { UpdateOwnedMoves(s.db, owner, c, input); }
    case DeleteItem(owner, c, now) =>
      if DeleteOwned(s.db, owner, c, now).Some? { DeleteOwnedMoves(s.db, owner, c, now); }
    case Rescan(f, j) => if RescanAdminFile(s.db, f, j).Some? { RescanMoves(s.db, f, j); }
    case Refresh(c) => if RefreshSearch(s.db, c).Some? { RefreshMoves(s.db, c); }
    case _ =>
  }

  /** Every step but a search worker's own moves the tables this way. */
  lemma StepMoves(s: State, a: Action)
    requires Inv(s) && !IsSync(a)
    ensures Moves(s.db, Apply(s, a).db)
  {
    if IsUpload(a) { UploadMoves(s, a); }
    else if a.CloseScan? { CloseScanMoves(s, a.pid, a.commit); }
    else if IsScan(a) { OtherScanStepsMove(s, a); }
    else if IsPromotion(a) { PromotionMoves(s, a); }
    else if a.Crash? { NoMove(s.db, s.db); }
    else { TablesStepMoves(s, a); }
  }

  lemma SyncKeepsRows(s: State, a: Action)
    requires IsSync(a)
    ensures Apply(s, a).db.items == s.db.items && Apply(s, a).db.files == s.db.files
  {
    SyncFrame(s, a);
  }

  lemma OtherStepKeepsRows(s: State, a: Action)
    requires Inv(s) && !IsSync(a)
    ensures var t := Apply(s, a);
      && (forall c | c in s.db.items :: c in t.db.items && ItemMoves(s.db.items[c], t.db.items[c]))
      && (forall f | f in s.db.files :: f in t.db.files && FileMoves(s.db.files[f], t.db.files[f]))
  {
    StepMoves(s, a);
  }

  lemma StepKeepsRows(s: State, a: Action)
    requires Inv(s)
    ensures var t := Apply(s, a);
      && (forall c | c in s.db.items :: c in t.db.items && ItemMoves(s.db.items[c], t.db.items[c]))
      && (forall f | f in s.db.files :: f in t.db.files && FileMoves(s.db.files[f], t.db.files[f]))
  {
    if IsSync(a) { SyncKeepsRows(s, a); } else { OtherStepKeepsRows(s, a); }
  }

  // ----- Permanence over runs ----------------------------------------------------------

  lemma {:induction false} RunKeepsFrom(s: State, actions: seq<Action>)
    requires Inv(s)
    ensures Inv(Run(s, actions))
    decreases |actions|
  {
    if |actions| > 0 {
      RunKeepsFrom(s, actions[..|actions| - 1]);
      ApplyKeeps(Run(s, actions[..|actions| - 1]), actions[|actions| - 1]);
    }
  }

  /** Once a file is clean its row never changes again: no rescan, no late verdict, no second promotion. */
  lemma {:induction false} CleanIsFinal(s: State, actions: seq<Action>, f: FileId)
    requires Inv(s) && f in s.db.files && s.db.files[f].scan == Clean
    ensures f in Run(s, actions).db.files && Run(s, actions).db.files[f] == s.db.files[f]
    decreases |actions|
  {
    if |actions| > 0 {
      var before := actions[..|actions| - 1];
      CleanIsFinal(s, before, f);
      RunKeepsFrom(s, before);
      StepKeepsRows(Run(s, before), actions[|actions| - 1]);
    }
  }

  /**
    A deleted item is never seen again, whatever late scans, rescans or retries do to its
    status: its deleted_at stays, and it is neither visible nor downloadable.
   */
  lemma {:induction false} DeletedIsGone(s: State, actions: seq<Action>, c: ItemId)
    requires Inv(s) && c in s.db.items && s.db.items[c].deletedAt != None
    ensures var db := Run(s, actions).db;
      && c in db.items && db.items[c].deletedAt == s.db.items[c].deletedAt
      && db.items[c].status != Published
      && !Visible(db, c) && !DownloadTarget(db, c)
    decreases |actions|
  {
    RunKeepsFrom(s, actions);
    var db := Run(s, actions).db;
    if |actions| > 0 {
      var before := actions[..|actions| - 1];
      DeletedIsGone(s, before, c);
      RunKeepsFrom(s, before);
      StepKeepsRows(Run(s, before), actions[|actions| - 1]);
    }
    assert Coherent(db.items[c], db.files[db.items[c].fileId].scan);
  }

  /** Text that the public can see was there when the item was published: one step never swaps it. */
  lemma PublishedTextIsStable(actions: seq<Action>, a: Action, c: ItemId)
    ensures var s := Run(START, actions);
      c in s.db.items && s.db.items[c].status == Published ==>
        c in Apply(s, a).db.items
        && (Apply(s, a).db.items[c].status == Published ==> Apply(s, a).db.items[c].meta == s.db.items[c].meta)
  {
    RunKeeps(actions);
    StepKeepsRows(Run(START, actions), a);
  }
}
