/** What the protocol promises to its users, over every run and every interleaving. */
module PublicationTheorems {
  import opened Wrappers
  import opened Jobs
  import opened Publication
  import opened PublicationProofs
  import opened Protocol
  import opened ProtocolProofs

  /** Every file row names a stored object that holds exactly the bytes whose hash it records. */
  lemma EveryRowIsStored(actions: seq<Action>, f: FileId)
    ensures var s := Run(START, actions);
      f in s.db.files ==>
        && s.db.files[f].location in s.objects
        && s.objects[s.db.files[f].location] == s.db.files[f].hash
  {
    RunKeeps(actions);
    var s := Run(START, actions);
    if f in s.db.files { assert Stored(s, f); }
  }

  /** The download query finds exactly the published items, and the object of each is there. */
  lemma PublishedIsDownloadable(actions: seq<Action>, c: ItemId)
    ensures var s := Run(START, actions);
      DownloadTarget(s.db, c) <==> c in s.db.items && s.db.items[c].status == Published
    ensures var s := Run(START, actions);
      c in s.db.items && s.db.items[c].status == Published ==>
        && s.db.files[s.db.items[c].fileId].location in s.objects
        && s.objects[s.db.files[s.db.items[c].fileId].location] == s.db.files[s.db.items[c].fileId].hash
  {
    RunKeeps(actions);
    var s := Run(START, actions);
    if c in s.db.items {
      var f := s.db.items[c].fileId;
      assert Coherent(s.db.items[c], s.db.files[f].scan) && Placed(f, s.db.files[f]) && Stored(s, f);
    }
  }

  /** The object a process is about to remove. */
  function RemovalTarget(proc: Proc): Option<Location> {
    match proc
    case Dropping(upload) => Some(Quarantined(upload))
    case Undoing(_, target) => Some(target)
    case Sweeping(source) => Some(source)
    case _ => None
  }

  /** No cleanup ever aims at an object that a row refers to. */
  lemma CleanupsMissEveryRow(actions: seq<Action>, pid: WorkerId, f: FileId)
    ensures var s := Run(START, actions);
      pid in s.procs && f in s.db.files ==> RemovalTarget(s.procs[pid]) != Some(s.db.files[f].location)
  {
    RunKeeps(actions);
    var s := Run(START, actions);
    if pid in s.procs && f in s.db.files {
      assert ProcOk(s, pid, s.procs[pid]) && Stored(s, f) && Placed(f, s.db.files[f]);
      match s.procs[pid] {
        case Undoing(intent, _) => HeldFile(s.db, pid, intent.lease);
        case Sweeping(source) =>
          var u: nat :| u < |s.keys| && source == Quarantined(u) && s.keys[u] == Retired;
        case _ =>
      }
    }
  }

  /** A cleanup that succeeds removes its object and no other; with or without success the process goes on. */
  lemma CleanupRemoves(s: State, pid: WorkerId, removed: bool)
    requires pid in s.procs && RemovalTarget(s.procs[pid]).Some?
    ensures var target := RemovalTarget(s.procs[pid]).value;
      var t := match s.procs[pid]
        case Dropping(_) => Apply(s, DropUpload(pid, removed))
        case Undoing(_, _) => Apply(s, Undo(pid, removed))
        case _ => Apply(s, Sweep(pid, removed));
      && t.objects == (if removed then s.objects - {target} else s.objects) && t.db == s.db
      && (pid in t.procs ==> t.procs[pid].Reporting?)
  {
  }

  /** A file awaits its scan exactly when one scan job for it has not succeeded, and that job describes its row. */
  lemma AwaitingIffOneOpenJob(actions: seq<Action>, f: FileId)
    ensures var db := Run(START, actions).db;
      f in db.files ==>
        && (db.files[f].scan == AwaitingScan <==> exists j :: OpenScanOf(db, j, f))
        && (forall i, j | OpenScanOf(db, i, f) && OpenScanOf(db, j, f) :: i == j)
        && (forall j | OpenScanOf(db, j, f) :: PayloadMatches(db.scans[j].payload, db.files[f]))
  {
    RunKeeps(actions);
    var db := Run(START, actions).db;
    if f in db.files {
      forall j | OpenScanOf(db, j, f)
        ensures db.files[f].scan == AwaitingScan && PayloadMatches(db.scans[j].payload, db.files[f])
      {
        assert ScanRowOk(db, j);
      }
    }
  }

  /** A clean file is never in quarantine, so the reconciling worker and the admin never copy anything. */
  lemma CleanIsPromoted(actions: seq<Action>, f: FileId, pid: WorkerId)
    ensures var s := Run(START, actions);
      && (f in s.db.files ==>
            if s.db.files[f].scan == Clean
            then s.db.files[f].location == Location(PrivateBucket, ContentKey(s.db.files[f].contentId, f))
            else s.db.files[f].location.bucket == QuarantineBucket && s.db.files[f].location.key.UploadKey?)
      && (pid in s.procs && s.procs[pid].Ready? && !s.procs[pid].intent.ByScan? ==> !s.procs[pid].copied)
  {
    RunKeeps(actions);
    var s := Run(START, actions);
    if f in s.db.files { assert Placed(f, s.db.files[f]); }
    if pid in s.procs { assert ProcOk(s, pid, s.procs[pid]); }
  }

  /** The metadata-mismatch branches of the scan are unreachable: both comparisons always succeed. */
  lemma ScanChecksNeverFail(actions: seq<Action>, pid: WorkerId)
    ensures var s := Run(START, actions);
      && (pid in s.procs && s.procs[pid].Leased? ==>
            var p := s.procs[pid].lease.payload;
            p.fileId in s.db.files && PayloadMatches(p, s.db.files[p.fileId]))
      && (pid in s.procs && s.procs[pid].Loaded? ==>
            var row := s.procs[pid].row;
            row.location in s.objects && s.objects[row.location] == row.hash)
  {
    RunKeeps(actions);
    var s := Run(START, actions);
    if pid in s.procs && (s.procs[pid].Leased? || s.procs[pid].Loaded?) {
      assert ProcOk(s, pid, s.procs[pid]);
      HeldFile(s.db, pid, s.procs[pid].lease);
      assert Stored(s, s.procs[pid].lease.payload.fileId);
    }
  }

  /** Status, timestamps and scan status go together in every reachable state. */
  lemma StatusesAreCoherent(actions: seq<Action>, c: ItemId)
    ensures var db := Run(START, actions).db;
      c in db.items ==>
        var item := db.items[c];
        && item.fileId in db.files && db.files[item.fileId].contentId == c
        && (item.publishedAt != None <==> item.status in {Published, Hidden})
        && (item.hiddenAt != None <==> item.status == Hidden)
        && (item.deletedAt != None ==> item.status in {Deleted, PendingScan, ScanFailed})
        && (item.status in {PendingModeration, Published, Hidden} ==> db.files[item.fileId].scan == Clean)
        && item.status != Approved
        && (Visible(db, c) <==> item.status == Published && item.visibility == Public)
  {
    RunKeeps(actions);
    var db := Run(START, actions).db;
    if c in db.items {
      TwoFieldTestIsVisibility(db, c);
      assert Coherent(db.items[c], db.files[db.items[c].fileId].scan);
    }
  }
}
