/** Every transaction keeps the table invariant, and announces what it does to the search index. */
module PublicationProofs {
  import opened Wrappers
  import opened Jobs
  import opened Publication

  lemma CreateUploadKeeps(db: Db, u: Upload, upload: nat, hash: Bytes)
    requires DbInv(db) && CreateUpload(db, u, Quarantined(upload), hash).Some?
    ensures DbInv(CreateUpload(db, u, Quarantined(upload), hash).value)
  {
    var after := CreateUpload(db, u, Quarantined(upload), hash).value;
    forall j | j in after.scans ensures ScanRowOk(after, j) {
      if j in db.scans { assert ScanRowOk(db, j); }
    }
    forall f, i, j | OpenScanOf(after, i, f) && OpenScanOf(after, j, f) ensures i == j {
      if i in db.scans { assert ScanRowOk(db, i); assert OpenScanOf(db, i, f); }
      if j in db.scans { assert ScanRowOk(db, j); assert OpenScanOf(db, j, f); }
    }
    forall f | f in after.files && after.files[f].scan == AwaitingScan ensures exists j :: OpenScanOf(after, j, f) {
      if f == u.fileId {
        assert OpenScanOf(after, u.jobId, f);
      } else {
        var j :| OpenScanOf(db, j, f);
        assert OpenScanOf(after, j, f);
      }
    }
  }

  /** Claims, reports and retries move a scan job between open states and touch nothing else. */
  predicate SameScan(before: Job<ScanPayload>, after: Job<ScanPayload>) {
    after.payload == before.payload && (Open(before) <==> Open(after))
  }

  lemma ScanTouchKeeps(db: Db, j: JobId, job: Job<ScanPayload>)
    requires DbInv(db) && j in db.scans && SameScan(db.scans[j], job)
    ensures DbInv(db.(scans := db.scans[j := job]))
  {
    var after := db.(scans := db.scans[j := job]);
    forall i | i in after.scans ensures ScanRowOk(after, i) { assert ScanRowOk(db, i); }
    forall i, f ensures OpenScanOf(after, i, f) <==> OpenScanOf(db, i, f) {}
    forall f | f in after.files && after.files[f].scan == AwaitingScan ensures exists i :: OpenScanOf(after, i, f) {
      var i :| OpenScanOf(db, i, f);
      assert OpenScanOf(after, i, f);
    }
  }

  /** The scan of one file ends: its job succeeds and its row leaves AwaitingScan. */
  lemma ScanEndKeeps(db: Db, after: Db, j: JobId)
    requires DbInv(db) && j in db.scans && Open(db.scans[j])
    requires var f := db.scans[j].payload.fileId;
      && f in db.files
      && f in after.files && after.files[f].contentId == db.files[f].contentId
      && after.files[f].scan != AwaitingScan
      && after.files == db.files[f := after.files[f]]
    requires after.scans == db.scans[j := MarkedSucceeded(db.scans[j])]
    ensures ScansOk(after)
  {
    var f := db.scans[j].payload.fileId;
    assert OpenScanOf(db, j, f);
    forall i | i in after.scans ensures ScanRowOk(after, i) {
      assert ScanRowOk(db, i);
      if i != j && Open(db.scans[i]) { assert !OpenScanOf(db, i, f); }
    }
    forall g, i, k | OpenScanOf(after, i, g) && OpenScanOf(after, k, g) ensures i == k {
      assert OpenScanOf(db, i, g) && OpenScanOf(db, k, g);
    }
    forall g | g in after.files && after.files[g].scan == AwaitingScan ensures exists i :: OpenScanOf(after, i, g) {
      var i :| OpenScanOf(db, i, g);
      assert OpenScanOf(after, i, g);
    }
  }

  /** A file and its item change together. */
  lemma FileAndItemKeep(db: Db, after: Db, f: FileId)
    requires DbInv(db) && f in db.files && f in after.files && db.files[f].contentId in after.items
    requires after.files == db.files[f := after.files[f]] && after.files[f].contentId == db.files[f].contentId
    requires var c := db.files[f].contentId;
      && after.items == db.items[c := after.items[c]]
      && after.items[c].fileId == f
      && Coherent(after.items[c], after.files[f].scan)
    requires Placed(f, after.files[f]) && ScansOk(after)
    ensures DbInv(after)
  {
  }

  lemma CompleteFileScanKeeps(db: Db, j: JobId, scan: ScanStatus)
    requires DbInv(db) && j in db.scans && Open(db.scans[j]) && scan in {Suspicious, Infected, ScanErrored}
    ensures var p := db.scans[j].payload;
      var tx := CompleteFileScan(db, j, p.fileId, p.contentId, scan, ScanFailed);
      tx.Some? && DbInv(tx.value)
  {
    assert ScanRowOk(db, j);
    var p := db.scans[j].payload;
    var after := CompleteFileScan(db, j, p.fileId, p.contentId, scan, ScanFailed).value;
    ScanEndKeeps(db, after, j);
    assert Placed(p.fileId, db.files[p.fileId]) && Coherent(db.items[p.contentId], AwaitingScan);
    FileAndItemKeep(db, after, p.fileId);
  }

  lemma CompleteFileScanAndPublishKeeps(db: Db, j: JobId, now: Time)
    requires DbInv(db) && j in db.scans && Open(db.scans[j])
    requires var p := db.scans[j].payload;
      CompleteFileScanAndPublish(db, j, p.fileId, p.contentId, Clean, Promoted(p.contentId, p.fileId), now).Some?
    ensures var p := db.scans[j].payload;
      DbInv(CompleteFileScanAndPublish(db, j, p.fileId, p.contentId, Clean, Promoted(p.contentId, p.fileId), now).value)
  {
    assert ScanRowOk(db, j);
    var p := db.scans[j].payload;
    var after := CompleteFileScanAndPublish(db, j, p.fileId, p.contentId, Clean, Promoted(p.contentId, p.fileId), now).value;
    ScanEndKeeps(db, after, j);
    assert Coherent(db.items[p.contentId], AwaitingScan);
    FileAndItemKeep(db, after, p.fileId);
  }

  /** The one job that a rescan adds is the only open one of its file. */
  lemma RescanScans(db: Db, f: FileId, j: JobId)
    requires DbInv(db) && RescanAdminFile(db, f, j).Some?
    ensures ScansOk(RescanAdminFile(db, f, j).value)
  {
    var after := RescanAdminFile(db, f, j).value;
    forall i | i in after.scans ensures ScanRowOk(after, i) {
      if i in db.scans { assert ScanRowOk(db, i); }
    }
    forall g, i, k | OpenScanOf(after, i, g) && OpenScanOf(after, k, g) ensures i == k {
      if i in db.scans { assert ScanRowOk(db, i); assert OpenScanOf(db, i, g); }
      if k in db.scans { assert ScanRowOk(db, k); assert OpenScanOf(db, k, g); }
    }
    forall g | g in after.files && after.files[g].scan == AwaitingScan ensures exists i :: OpenScanOf(after, i, g) {
      if g == f {
        assert OpenScanOf(after, j, f);
      } else {
        var i :| OpenScanOf(db, i, g);
        assert OpenScanOf(after, i, g);
      }
    }
  }

  lemma RescanKeeps(db: Db, f: FileId, j: JobId)
    requires DbInv(db) && RescanAdminFile(db, f, j).Some?
    ensures DbInv(RescanAdminFile(db, f, j).value)
  {
    RescanScans(db, f, j);
    assert Placed(f, db.files[f]) && Coherent(db.items[db.files[f].contentId], db.files[f].scan);
    FileAndItemKeep(db, RescanAdminFile(db, f, j).value, f);
  }

  /** Transactions on one item leave the scan jobs, the scan statuses and the file ids alone. */
  lemma ItemChangeKeeps(db: Db, after: Db, c: ItemId)
    requires DbInv(db) && c in db.items && c in after.items
    requires after.items == db.items[c := after.items[c]] && after.items[c].fileId == db.items[c].fileId
    requires after.files == db.files && after.scans == db.scans
    requires Coherent(after.items[c], db.files[db.items[c].fileId].scan)
    ensures DbInv(after)
  {
    forall j | j in after.scans ensures ScanRowOk(after, j) { assert ScanRowOk(db, j); }
    forall i, f ensures OpenScanOf(after, i, f) <==> OpenScanOf(db, i, f) {}
    forall f | f in after.files && after.files[f].scan == AwaitingScan ensures exists i :: OpenScanOf(after, i, f) {
      var i :| OpenScanOf(db, i, f);
      assert OpenScanOf(after, i, f);
    }
  }

  /** A file that was clean when it was read still is, so a stale target is still its location. */
  lemma PublishCleanKeeps(db: Db, f: FileId, c: ItemId, target: Location, now: Time)
    requires DbInv(db) && f in db.files && db.files[f].location == target
    requires PublishClean(db, f, c, target, now).Some?
    ensures DbInv(PublishClean(db, f, c, target, now).value)
  {
    var after := PublishClean(db, f, c, target, now).value;
    assert after.files == db.files;
    ItemChangeKeeps(db, after, c);
  }

  lemma ApproveKeeps(db: Db, f: FileId, c: ItemId, target: Location, now: Time)
    requires DbInv(db) && f in db.files && db.files[f].location == target && db.files[f].contentId == c
    requires Approve(db, f, c, target, now).Some?
    ensures DbInv(Approve(db, f, c, target, now).value)
  {
    var after := Approve(db, f, c, target, now).value;
    assert after.files == db.files;
    ItemChangeKeeps(db, after, c);
  }

  lemma ReviewKeeps(db: Db, c: ItemId, review: Review, now: Time)
    requires DbInv(db) && ReviewContent(db, c, review, now).Some?
    ensures DbInv(ReviewContent(db, c, review, now).value)
  {
    ItemChangeKeeps(db, ReviewContent(db, c, review, now).value, c);
  }

  lemma UpdateOwnedKeeps(db: Db, owner: UserId, c: ItemId, input: OwnerUpdate)
    requires DbInv(db) && UpdateOwned(db, owner, c, input).Some?
    ensures DbInv(UpdateOwned(db, owner, c, input).value)
  {
    ItemChangeKeeps(db, UpdateOwned(db, owner, c, input).value, c);
  }

  lemma DeleteOwnedKeeps(db: Db, owner: UserId, c: ItemId, now: Time)
    requires DbInv(db) && DeleteOwned(db, owner, c, now).Some?
    ensures DbInv(DeleteOwned(db, owner, c, now).value)
  {
    ItemChangeKeeps(db, DeleteOwned(db, owner, c, now).value, c);
  }

  /** The search queue is no part of the table invariant. */
  lemma SearchChangeKeeps(db: Db, search: seq<Job<SearchPayload>>)
    requires DbInv(db)
    ensures DbInv(db.(search := search))
  {
    var after := db.(search := search);
    forall j | j in after.scans ensures ScanRowOk(after, j) { assert ScanRowOk(db, j); }
    forall i, f ensures OpenScanOf(after, i, f) <==> OpenScanOf(db, i, f) {}
    forall f | f in after.files && after.files[f].scan == AwaitingScan ensures exists i :: OpenScanOf(after, i, f) {
      var i :| OpenScanOf(db, i, f);
      assert OpenScanOf(after, i, f);
    }
  }

  // ----- What a transaction announces to the search queue ------------------------------

  /**
    At most one search job is appended, for an item of the tables. An item whose visibility
    changes is the one announced, and a Delete is only ever announced for an item that is
    not visible afterwards.
   */
  ghost predicate Announced(db: Db, after: Db) {
    && db.items.Keys <= after.items.Keys
    && (after.search == db.search || exists c, action :: AnnouncedOne(db, after, c, action))
    && (after.search == db.search ==> forall c :: DocOf(after, c) == DocOf(db, c))
  }

  ghost predicate AnnouncedOne(db: Db, after: Db, c: ItemId, action: SearchAction) {
    && c in after.items
    && after.search == db.search + [NewSearch(c, action)]
    && (action == Delete ==> !Visible(after, c))
    && (forall d | d != c :: DocOf(after, d) == DocOf(db, d))
  }

  /** The two-field test of UpdateOwned and DeleteOwned decides exactly the five-field test. */
  lemma TwoFieldTestIsVisibility(db: Db, c: ItemId)
    requires DbInv(db) && c in db.items
    ensures Visible(db, c) <==> db.items[c].status == Published && db.items[c].visibility == Public
  {
    assert Coherent(db.items[c], db.files[db.items[c].fileId].scan);
  }

  /** A transaction on one item says nothing about the documents of others. */
  lemma OtherDocsStay(db: Db, after: Db, c: ItemId)
    requires c in db.items && c in after.items && after.items == db.items[c := after.items[c]]
    ensures forall d | d != c :: DocOf(after, d) == DocOf(db, d)
  {
  }

  lemma UpdatedVisibility(db: Db, owner: UserId, c: ItemId, input: OwnerUpdate)
    requires DbInv(db) && UpdateOwned(db, owner, c, input).Some?
    ensures var after := UpdateOwned(db, owner, c, input).value;
      && c in db.items && c in after.items && after.items == db.items[c := after.items[c]]
      && (|after.search| == |db.search| ==> DocOf(after, c) == DocOf(db, c))
      && (|after.search| > |db.search| && after.search[|db.search|].payload.action == Delete ==> !Visible(after, c))
  {
    TwoFieldTestIsVisibility(db, c);
    UpdateOwnedKeeps(db, owner, c, input);
    TwoFieldTestIsVisibility(UpdateOwned(db, owner, c, input).value, c);
  }

  lemma UpdateOwnedAnnounces(db: Db, owner: UserId, c: ItemId, input: OwnerUpdate)
    requires DbInv(db) && UpdateOwned(db, owner, c, input).Some?
    ensures Announced(db, UpdateOwned(db, owner, c, input).value)
  {
    var after := UpdateOwned(db, owner, c, input).value;
    UpdatedVisibility(db, owner, c, input);
    OtherDocsStay(db, after, c);
    if |after.search| > |db.search| {
      var action := after.search[|db.search|].payload.action;
      assert after.search == db.search + [NewSearch(c, action)];
      assert AnnouncedOne(db, after, c, action);
    }
  }

  lemma DeleteOwnedAnnounces(db: Db, owner: UserId, c: ItemId, now: Time)
    requires DbInv(db) && DeleteOwned(db, owner, c, now).Some?
    ensures Announced(db, DeleteOwned(db, owner, c, now).value)
  {
    var after := DeleteOwned(db, owner, c, now).value;
    TwoFieldTestIsVisibility(db, c);
    if after.search != db.search { assert AnnouncedOne(db, after, c, Delete); }
  }

  lemma ReviewAnnounces(db: Db, c: ItemId, review: Review, now: Time)
    requires DbInv(db) && ReviewContent(db, c, review, now).Some?
    ensures Announced(db, ReviewContent(db, c, review, now).value)
  {
    var after := ReviewContent(db, c, review, now).value;
    assert AnnouncedOne(db, after, c, if review == Restore then Upsert else Delete);
  }

  lemma PublishingAnnounces(db: Db, after: Db, c: ItemId)
    requires c in db.items && after.search == db.search + [NewSearch(c, Upsert)]
    requires c in after.items && after.items == db.items[c := after.items[c]]
    ensures Announced(db, after)
  {
    assert AnnouncedOne(db, after, c, Upsert);
  }

  lemma RescanAnnounces(db: Db, f: FileId, j: JobId)
    requires DbInv(db) && RescanAdminFile(db, f, j).Some?
    ensures Announced(db, RescanAdminFile(db, f, j).value)
  {
    var c := db.files[f].contentId;
    assert Coherent(db.items[c], db.files[db.items[c].fileId].scan);
  }

  lemma CompleteFileScanAnnounces(db: Db, j: JobId, scan: ScanStatus)
    requires DbInv(db) && j in db.scans && Open(db.scans[j])
    ensures var p := db.scans[j].payload;
      var tx := CompleteFileScan(db, j, p.fileId, p.contentId, scan, ScanFailed);
      tx.Some? && Announced(db, tx.value)
  {
    assert ScanRowOk(db, j);
    var c := db.scans[j].payload.contentId;
    assert Coherent(db.items[c], db.files[db.items[c].fileId].scan);
  }
}
