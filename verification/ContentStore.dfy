/**
  The repository methods behind the protocol, statement by statement.

  A transaction works on its own copy of the tables; returning before Commit is the deferred
  rollback. Each method is proved to be the transaction of the same name in Publication.
 */
module ContentStore {
  import opened Wrappers
  import opened Jobs
  import opened Publication

  /** An open transaction: what its statements have written so far. */
  class Tx {
    var items: map<ItemId, Item>
    var files: map<FileId, File>
    var scans: map<JobId, Job<ScanPayload>>
    var search: seq<Job<SearchPayload>>

    constructor (store: Store)
      ensures View() == store.Rows()
    {
      items, files, scans, search := store.items, store.files, store.scans, store.search;
    }

    ghost function View(): Db
      reads this
    {
      Db(items, files, scans, search)
    }

    /** publishCleanContentTx: the statements two transactions share. */
    method PublishClean(fileId: FileId, contentId: ItemId, target: Location, now: Time) returns (ok: bool)
      modifies this
      ensures ok == Publication.PublishClean(old(View()), fileId, contentId, target, now).Some?
      ensures ok ==> View() == Publication.PublishClean(old(View()), fileId, contentId, target, now).value
    {
      if fileId !in files || files[fileId].contentId != contentId || files[fileId].scan != Clean { return false; }
      files := files[fileId := files[fileId].(location := target)];
      if contentId !in items || items[contentId].status !in {PendingScan, PendingModeration}
         || items[contentId].deletedAt != None { return false; }
      var item := items[contentId].(status := Published, hiddenAt := None);
      if item.publishedAt == None { item := item.(publishedAt := Some(now)); }
      items := items[contentId := item];
      search := search + [NewSearch(contentId, Upsert)];
      ok := true;
    }

    /** markSucceededTx: no matching row is an error. */
    method MarkScanSucceeded(jobId: JobId) returns (ok: bool)
      modifies `scans
      ensures ok == (jobId in old(scans))
      ensures ok ==> scans == old(scans)[jobId := MarkedSucceeded(old(scans)[jobId])]
    {
      if jobId !in scans { return false; }
      scans := scans[jobId := MarkedSucceeded(scans[jobId])];
      ok := true;
    }
  }

  class Store {
    var items: map<ItemId, Item>
    var files: map<FileId, File>
    var scans: map<JobId, Job<ScanPayload>>
    var search: seq<Job<SearchPayload>>

    constructor ()
      ensures Rows() == EMPTY
    {
      items, files, scans, search := map[], map[], map[], [];
    }

    function Rows(): Db
      reads this
    {
      Db(items, files, scans, search)
    }

    method Commit(tx: Tx)
      modifies this
      ensures Rows() == tx.View()
    {
      items, files, scans, search := tx.items, tx.files, tx.scans, tx.search;
    }

    method CreateUpload(u: Upload, location: Location, hash: Bytes) returns (ok: bool)
      modifies this
      ensures ok == Publication.CreateUpload(old(Rows()), u, location, hash).Some?
      ensures Rows() == Publication.CreateUpload(old(Rows()), u, location, hash).GetOr(old(Rows()))
    {
      var tx := new Tx(this);
      var unseen := files.Keys;
      while unseen != {}
        invariant unseen <= files.Keys
        invariant Rows() == old(Rows()) == tx.View()
        invariant fresh(tx)
        invariant forall f | f in files.Keys - unseen ::
          !(files[f].hash == hash && files[f].contentId in items && items[files[f].contentId].author == u.author
            && items[files[f].contentId].status != Deleted)
        decreases |unseen|
      {
        var f :| f in unseen;
        if files[f].hash == hash && files[f].contentId in items && items[files[f].contentId].author == u.author
           && items[files[f].contentId].status != Deleted { return false; }
        unseen := unseen - {f};
      }
      assert !DuplicateUpload(Rows(), u.author, hash);
      if u.contentId in tx.items || u.fileId in tx.files || u.jobId in tx.scans { return false; }
      tx.items := tx.items[u.contentId :=
        Item(u.author, u.meta, u.visibility, PendingScan, None, None, None, u.fileId)];
      tx.files := tx.files[u.fileId := File(u.contentId, location, hash, AwaitingScan)];
      tx.scans := tx.scans[u.jobId := NewScan(u.contentId, u.fileId, location)];
      Commit(tx);
      ok := true;
    }

    method CompleteFileScan(jobId: JobId, fileId: FileId, contentId: ItemId, scan: ScanStatus, status: Status)
      returns (ok: bool)
      modifies this
      ensures ok == Publication.CompleteFileScan(old(Rows()), jobId, fileId, contentId, scan, status).Some?
      ensures Rows() ==
        Publication.CompleteFileScan(old(Rows()), jobId, fileId, contentId, scan, status).GetOr(old(Rows()))
    {
      var tx := new Tx(this);
      if fileId !in tx.files { return false; }
      tx.files := tx.files[fileId := tx.files[fileId].(scan := scan)];
      if contentId !in tx.items { return false; }
      tx.items := tx.items[contentId := tx.items[contentId].(status := status)];
      ok := tx.MarkScanSucceeded(jobId);
      if ok { Commit(tx); }
    }

    method PublishCleanContent(fileId: FileId, contentId: ItemId, target: Location, now: Time) returns (ok: bool)
      modifies this
      ensures ok == Publication.PublishClean(old(Rows()), fileId, contentId, target, now).Some?
      ensures Rows() == Publication.PublishClean(old(Rows()), fileId, contentId, target, now).GetOr(old(Rows()))
    {
      var tx := new Tx(this);
      ok := tx.PublishClean(fileId, contentId, target, now);
      if ok { Commit(tx); }
    }

    method CompleteFileScanAndPublish(jobId: JobId, fileId: FileId, contentId: ItemId, scan: ScanStatus,
                                      target: Location, now: Time)
      returns (ok: bool)
      modifies this
      ensures var tx :=
          Publication.CompleteFileScanAndPublish(old(Rows()), jobId, fileId, contentId, scan, target, now);
        ok == tx.Some? && Rows() == tx.GetOr(old(Rows()))
    {
      var tx := new Tx(this);
      if fileId !in tx.files { return false; }
      tx.files := tx.files[fileId := tx.files[fileId].(scan := scan, location := target)];
      ok := tx.PublishClean(fileId, contentId, target, now);
      if !ok { return; }
      ok := tx.MarkScanSucceeded(jobId);
      if ok { Commit(tx); }
    }

    method RescanAdminFile(fileId: FileId, jobId: JobId) returns (ok: bool)
      modifies this
      ensures ok == Publication.RescanAdminFile(old(Rows()), fileId, jobId).Some?
      ensures Rows() == Publication.RescanAdminFile(old(Rows()), fileId, jobId).GetOr(old(Rows()))
    {
      var tx := new Tx(this);
      if fileId !in tx.files || tx.files[fileId].contentId !in tx.items || jobId in tx.scans { return false; }
      var before := tx.files[fileId];
      if before.scan != ScanErrored && before.scan != Suspicious && before.scan != Infected { return false; }
      tx.files := tx.files[fileId := before.(scan := AwaitingScan)];
      tx.items := tx.items[before.contentId :=
        tx.items[before.contentId].(status := PendingScan, publishedAt := None, hiddenAt := None)];
      tx.scans := tx.scans[jobId := NewScan(before.contentId, fileId, before.location)];
      Commit(tx);
      ok := true;
    }

    method Approve(fileId: FileId, contentId: ItemId, target: Location, now: Time) returns (ok: bool)
      modifies this
      ensures ok == Publication.Approve(old(Rows()), fileId, contentId, target, now).Some?
      ensures Rows() == Publication.Approve(old(Rows()), fileId, contentId, target, now).GetOr(old(Rows()))
    {
      var tx := new Tx(this);
      if fileId !in tx.files || tx.files[fileId].scan != Clean { return false; }
      tx.files := tx.files[fileId := tx.files[fileId].(location := target)];
      if contentId !in tx.items || tx.items[contentId].status !in {PendingModeration, Approved} { return false; }
      var item := tx.items[contentId].(status := Published);
      if item.publishedAt == None { item := item.(publishedAt := Some(now)); }
      tx.items := tx.items[contentId := item];
      tx.search := tx.search + [NewSearch(contentId, Upsert)];
      Commit(tx);
      ok := true;
    }

    /** reviewContent, the transaction under Reject, Hide and Restore. */
    method ReviewContent(contentId: ItemId, review: Review, now: Time) returns (ok: bool)
      modifies this
      ensures ok == Publication.ReviewContent(old(Rows()), contentId, review, now).Some?
      ensures Rows() == Publication.ReviewContent(old(Rows()), contentId, review, now).GetOr(old(Rows()))
    {
      var tx := new Tx(this);
      if contentId !in tx.items || tx.items[contentId].deletedAt != None { return false; }
      var item := tx.items[contentId];
      if item.status !in AllowedStatuses(review) { return false; }
      if review == Restore && (item.fileId !in tx.files || tx.files[item.fileId].scan != Clean) { return false; }
      if review == Hide {
        item := item.(status := Hidden);
        if item.hiddenAt == None { item := item.(hiddenAt := Some(now)); }
      } else if review == Restore {
        item := item.(status := Published, hiddenAt := None);
        if item.publishedAt == None { item := item.(publishedAt := Some(now)); }
      } else {
        item := item.(status := Rejected, hiddenAt := None, publishedAt := None);
      }
      tx.items := tx.items[contentId := item];
      tx.search := tx.search + [NewSearch(contentId, if review == Restore then Upsert else Delete)];
      Commit(tx);
      ok := true;
    }

    method UpdateOwned(owner: UserId, contentId: ItemId, input: OwnerUpdate) returns (ok: bool)
      modifies this
      ensures ok == Publication.UpdateOwned(old(Rows()), owner, contentId, input).Some?
      ensures Rows() == Publication.UpdateOwned(old(Rows()), owner, contentId, input).GetOr(old(Rows()))
    {
      var tx := new Tx(this);
      if contentId !in tx.items || tx.items[contentId].author != owner || tx.items[contentId].deletedAt != None
         || tx.items[contentId].status == Deleted { return false; }
      var current := tx.items[contentId];
      var visibility := current.visibility;
      if input.visibility.Some? { visibility := input.visibility.value; }
      var newStatus, clearPublication := current.status, false;
      if UpdateNeedsModeration(current.status, input) {
        if current.fileId !in tx.files || tx.files[current.fileId].scan != Clean { return false; }
        newStatus, clearPublication := PendingModeration, true;
      }
      var wasSearchVisible := current.status == Published && current.visibility == Public;
      var willSearchVisible := newStatus == Published && visibility == Public && !clearPublication;
      var item := current.(meta := UpdatedMeta(current.meta, input), visibility := visibility, status := newStatus);
      if clearPublication { item := item.(publishedAt := None, hiddenAt := None); }
      tx.items := tx.items[contentId := item];
      if wasSearchVisible && !willSearchVisible {
        tx.search := tx.search + [NewSearch(contentId, Delete)];
      } else if willSearchVisible {
        tx.search := tx.search + [NewSearch(contentId, Upsert)];
      }
      Commit(tx);
      ok := true;
    }

    method DeleteOwned(owner: UserId, contentId: ItemId, now: Time) returns (ok: bool)
      modifies this
      ensures ok == Publication.DeleteOwned(old(Rows()), owner, contentId, now).Some?
      ensures Rows() == Publication.DeleteOwned(old(Rows()), owner, contentId, now).GetOr(old(Rows()))
    {
      var tx := new Tx(this);
      if contentId !in tx.items || tx.items[contentId].author != owner || tx.items[contentId].deletedAt != None
         || tx.items[contentId].status == Deleted { return false; }
      var target := tx.items[contentId];
      var wasPublishedPublic := target.status == Published && target.visibility == Public;
      tx.items := tx.items[contentId :=
        target.(status := Deleted, publishedAt := None, hiddenAt := None, deletedAt := Some(now))];
      if wasPublishedPublic { tx.search := tx.search + [NewSearch(contentId, Delete)]; }
      Commit(tx);
      ok := true;
    }
  }
}
