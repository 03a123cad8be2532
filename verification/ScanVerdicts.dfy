/**
  Where a recorded verdict comes from: in every run, it is what the last inspection of the
  file found. In particular no file is clean, moved or published unless its last inspection
  found it clean.
 */
module ScanVerdicts {
  import opened Wrappers
  import opened Jobs
  import opened Publication
  import opened Protocol
  import opened ProtocolProofs
  import opened PublicationSteps
  import opened PublicationColumns

  /** The action is an inspection of the file, by a worker that has loaded it, that could read it. */
  predicate Inspects(s: State, a: Action, f: FileId) {
    && a.Inspect? && !a.outcome.Unreadable?
    && a.pid in s.procs && s.procs[a.pid].Loaded? && s.procs[a.pid].row.fileId == f
  }

  /** What the last inspection of the file found, if there was one. */
  function LastFinding(actions: seq<Action>, f: FileId): Option<Outcome>
    decreases |actions|
  {
    if |actions| == 0 then None
    else
      var before, a := actions[..|actions| - 1], actions[|actions| - 1];
      if Inspects(Run(START, before), a, f) then Some(a.outcome) else LastFinding(before, f)
  }

  /** The only finding that leads to a verdict. */
  function Cause(verdict: ScanStatus): Option<Outcome> {
    match verdict
    case Clean => Some(FoundClean)
    case Infected => Some(FoundInfected)
    case Suspicious => Some(FoundMalformed)
    case ScanErrored => Some(AntivirusSkipped)
    case AwaitingScan => None
  }

  /** A process that is about to record a verdict, and for which file. */
  predicate Brings(proc: Proc, f: FileId, verdict: ScanStatus) {
    match proc
    case Closing(lease, v) => lease.payload.fileId == f && v == verdict
    case Promoting(intent, row) => intent.ByScan? && row.fileId == f && verdict == Clean
    case Ready(intent, row, _, _) => intent.ByScan? && row.fileId == f && verdict == Clean
    case _ => false
  }

  /** Every verdict, recorded or about to be, has its cause in the last finding of the history. */
  ghost predicate RowsExplained(s: State, history: seq<Action>) {
    forall f | f in s.db.files && s.db.files[f].scan != AwaitingScan ::
      LastFinding(history, f) == Cause(s.db.files[f].scan)
  }

  ghost predicate ProcsExplained(s: State, history: seq<Action>) {
    forall pid, f, v | pid in s.procs && Brings(s.procs[pid], f, v) :: LastFinding(history, f) == Cause(v)
  }

  ghost predicate Explained(s: State, history: seq<Action>) {
    RowsExplained(s, history) && ProcsExplained(s, history)
  }

  /** The history has grown by the action that the state is about to take. */
  predicate Next(s: State, a: Action, before: seq<Action>, history: seq<Action>) {
    s == Run(START, before) && history == before + [a]
  }

  lemma NextFinding(s: State, a: Action, before: seq<Action>, history: seq<Action>, f: FileId)
    requires Next(s, a, before, history)
    ensures LastFinding(history, f) == if Inspects(s, a, f) then Some(a.outcome) else LastFinding(before, f)
  {
    assert history[..|history| - 1] == before;
  }

  /** Whoever brings a verdict holds the scan of that file, which is still waiting for it. */
  lemma BringerHolds(s: State, pid: WorkerId, f: FileId, v: ScanStatus)
    requires Inv(s) && pid in s.procs && Brings(s.procs[pid], f, v)
    ensures LeaseIn(s.procs[pid]).Some? && LeaseIn(s.procs[pid]).value.payload.fileId == f
    ensures Holds(s.db, pid, LeaseIn(s.procs[pid]).value)
    ensures f in s.db.files && s.db.files[f].scan == AwaitingScan
  {
    assert ProcOk(s, pid, s.procs[pid]);
    ProcFacts(s, pid);
  }

  /** Verdicts in hand pass from step to step; only an inspection gives a process a new one. */
  lemma BringsBefore(s: State, a: Action, pid: WorkerId, f: FileId, v: ScanStatus)
    requires Inv(s) && !a.Inspect? && pid in Apply(s, a).procs && Brings(Apply(s, a).procs[pid], f, v)
    ensures pid in s.procs && Brings(s.procs[pid], f, v)
  {
    if IsUpload(a) { UploadBrings(s, a, pid, f, v); }
    else if a.LoadFile? { LoadBrings(s, a, pid, f, v); }
    else if IsScan(a) { ScanBrings(s, a, pid, f, v); }
    else if IsPromotion(a) { PromotionBrings(s, a, pid, f, v); }
    else { OtherBrings(s, a, pid); }
  }

  /** Search workers, transactions and crashes give no process anything. */
  lemma OtherBrings(s: State, a: Action, pid: WorkerId)
    requires !IsUpload(a) && !IsScan(a) && !IsPromotion(a) && pid in Apply(s, a).procs
    ensures pid in s.procs && Apply(s, a).procs[pid] == s.procs[pid]
  {
    if IsSync(a) { SyncFrame(s, a); }
  }

  lemma LoadBrings(s: State, a: Action, pid: WorkerId, f: FileId, v: ScanStatus)
    requires Inv(s) && a.LoadFile? && pid in ScanStep(s, a).procs && Brings(ScanStep(s, a).procs[pid], f, v)
    ensures pid in s.procs && Brings(s.procs[pid], f, v)
  {
    if a.pid in s.procs && s.procs[a.pid].Leased? {
      assert ProcOk(s, a.pid, s.procs[a.pid]);
      HeldFile(s.db, a.pid, s.procs[a.pid].lease);
      LoadedBrings(s, a, pid, f, v);
    } else {
      IdleLoad(s, a);
    }
  }

  lemma IdleLoad(s: State, a: Action)
    requires a.LoadFile? && !(a.pid in s.procs && s.procs[a.pid].Leased?)
    ensures ScanStep(s, a) == s
  {
  }

  lemma UploadBrings(s: State, a: Action, pid: WorkerId, f: FileId, v: ScanStatus)
    requires IsUpload(a) && pid in UploadStep(s, a).procs && Brings(UploadStep(s, a).procs[pid], f, v)
    ensures pid in s.procs && Brings(s.procs[pid], f, v)
  {
  }

  /** The payload always matches, so loading brings no verdict. */
  lemma LoadedBrings(s: State, a: Action, pid: WorkerId, f: FileId, v: ScanStatus)
    requires a.LoadFile? && a.pid in s.procs && s.procs[a.pid].Leased?
    requires var p := s.procs[a.pid].lease.payload; p.fileId in s.db.files && PayloadMatches(p, s.db.files[p.fileId])
    requires pid in ScanStep(s, a).procs && Brings(ScanStep(s, a).procs[pid], f, v)
    ensures pid in s.procs && Brings(s.procs[pid], f, v)
  {
  }

  lemma ScanBrings(s: State, a: Action, pid: WorkerId, f: FileId, v: ScanStatus)
    requires IsScan(a) && !a.Inspect? && !a.LoadFile?
    requires pid in ScanStep(s, a).procs && Brings(ScanStep(s, a).procs[pid], f, v)
    ensures pid in s.procs && Brings(s.procs[pid], f, v)
  {
  }

  lemma PromotionBrings(s: State, a: Action, pid: WorkerId, f: FileId, v: ScanStatus)
    requires IsPromotion(a) && pid in PromotionStep(s, a).procs && Brings(PromotionStep(s, a).procs[pid], f, v)
    ensures pid in s.procs && Brings(s.procs[pid], f, v)
  {
    if a.Publish? { PublishBrings(s, a, pid, f, v); }
    else if a.CopyOut? { CopyBrings(s, a, pid, f, v); }
    else { OtherPromotionBrings(s, a, pid, f, v); }
  }

  lemma CopyBrings(s: State, a: Action, pid: WorkerId, f: FileId, v: ScanStatus)
    requires a.CopyOut? && pid in PromotionStep(s, a).procs && Brings(PromotionStep(s, a).procs[pid], f, v)
    ensures pid in s.procs && Brings(s.procs[pid], f, v)
  {
  }

  lemma OtherPromotionBrings(s: State, a: Action, pid: WorkerId, f: FileId, v: ScanStatus)
    requires IsPromotion(a) && !a.Publish? && !a.CopyOut?
    requires pid in PromotionStep(s, a).procs && Brings(PromotionStep(s, a).procs[pid], f, v)
    ensures pid in s.procs && Brings(s.procs[pid], f, v)
  {
  }

  lemma PublishBrings(s: State, a: Action, pid: WorkerId, f: FileId, v: ScanStatus)
    requires a.Publish? && pid in PromotionStep(s, a).procs && Brings(PromotionStep(s, a).procs[pid], f, v)
    ensures pid in s.procs && Brings(s.procs[pid], f, v)
  {
  }

  /** What an inspection finds is what its worker brings, and nobody else is on that file. */
  lemma InspectExplained(s: State, a: Action, before: seq<Action>, history: seq<Action>)
    requires Inv(s) && Explained(s, before) && a.Inspect? && Next(s, a, before, history)
    ensures Explained(Apply(s, a), history)
  {
    var t := Apply(s, a);
    InspectKeepsTables(s, a);
    forall f | f in t.db.files && t.db.files[f].scan != AwaitingScan
      ensures LastFinding(history, f) == Cause(t.db.files[f].scan)
    {
      VerdictsAreNotInspected(s, a, f);
      NextFinding(s, a, before, history, f);
    }
    forall pid, f, v | pid in t.procs && Brings(t.procs[pid], f, v) ensures LastFinding(history, f) == Cause(v) {
      InspectBrings(s, a, pid, f, v);
      NextFinding(s, a, before, history, f);
    }
  }

  lemma InspectKeepsTables(s: State, a: Action)
    requires a.Inspect?
    ensures Apply(s, a).db == s.db
  {
  }

  lemma VerdictsAreNotInspected(s: State, a: Action, f: FileId)
    requires Inv(s) && f in s.db.files && s.db.files[f].scan != AwaitingScan
    ensures !Inspects(s, a, f)
  {
    if Inspects(s, a, f) {
      assert ProcOk(s, a.pid, s.procs[a.pid]);
      ProcFacts(s, a.pid);
    }
  }

  lemma InspectBrings(s: State, a: Action, pid: WorkerId, f: FileId, v: ScanStatus)
    requires Inv(s) && a.Inspect? && pid in Apply(s, a).procs && Brings(Apply(s, a).procs[pid], f, v)
    ensures if Inspects(s, a, f) then Some(a.outcome) == Cause(v) else pid in s.procs && Brings(s.procs[pid], f, v)
  {
    if a.pid in s.procs && s.procs[a.pid].Loaded? {
      assert ProcOk(s, a.pid, s.procs[a.pid]);
      ProcFacts(s, a.pid);
      assert Stored(s, s.procs[a.pid].row.fileId);
      if pid == a.pid { InspectedBrings(s, a, f, v); } else { OthersBring(s, a, pid, f, v); }
    }
  }

  /** The stored bytes are the recorded ones, so the finding alone decides. */
  lemma InspectedBrings(s: State, a: Action, f: FileId, v: ScanStatus)
    requires a.Inspect? && a.pid in s.procs && s.procs[a.pid].Loaded?
    requires var row := s.procs[a.pid].row; row.location in s.objects && s.objects[row.location] == row.hash
    requires s.procs[a.pid].lease.payload.fileId == s.procs[a.pid].row.fileId
    requires a.pid in Apply(s, a).procs && Brings(Apply(s, a).procs[a.pid], f, v)
    ensures Inspects(s, a, f) && Some(a.outcome) == Cause(v)
  {
  }

  lemma OthersBring(s: State, a: Action, pid: WorkerId, f: FileId, v: ScanStatus)
    requires Inv(s) && a.Inspect? && a.pid in s.procs && s.procs[a.pid].Loaded? && pid != a.pid
    requires pid in Apply(s, a).procs && Brings(Apply(s, a).procs[pid], f, v)
    ensures pid in s.procs && Brings(s.procs[pid], f, v) && !Inspects(s, a, f)
  {
    InspectLeavesOthers(s, a, pid);
    assert ProcOk(s, a.pid, s.procs[a.pid]);
    BringerHolds(s, pid, f, v);
    OneHolder(s.db, a.pid, pid, s.procs[a.pid].lease, LeaseIn(s.procs[pid]).value);
  }

  lemma InspectLeavesOthers(s: State, a: Action, pid: WorkerId)
    requires a.Inspect? && pid != a.pid && pid in Apply(s, a).procs
    ensures pid in s.procs && Apply(s, a).procs[pid] == s.procs[pid]
  {
  }

  /** The verdict that a finding causes. */
  function VerdictOf(finding: Outcome): (v: ScanStatus)
    requires !finding.Unreadable?
    ensures Cause(v) == Some(finding)
  {
    match finding
    case FoundClean => Clean
    case FoundInfected => Infected
    case FoundMalformed => Suspicious
    case _ => ScanErrored
  }

  lemma InspectionGoesOn(s: State, a: Action)
    requires a.Inspect? && !a.outcome.Unreadable? && a.pid in s.procs && s.procs[a.pid].Loaded?
    requires var row := s.procs[a.pid].row; row.location in s.objects && s.objects[row.location] == row.hash
    requires s.procs[a.pid].lease.payload.fileId == s.procs[a.pid].row.fileId
    ensures a.pid in ScanStep(s, a).procs
    ensures Brings(ScanStep(s, a).procs[a.pid], s.procs[a.pid].row.fileId, VerdictOf(a.outcome))
  {
  }

  /** And every finding is brought: the worker goes on with the verdict that it causes. */
  lemma FindingIsBrought(s: State, a: Action, f: FileId)
    requires Inv(s) && Inspects(s, a, f)
    ensures a.pid in Apply(s, a).procs && Brings(Apply(s, a).procs[a.pid], f, VerdictOf(a.outcome))
  {
    assert ProcOk(s, a.pid, s.procs[a.pid]);
    ProcFacts(s, a.pid);
    assert Stored(s, f);
    InspectionGoesOn(s, a);
  }

  /** Any other step records only verdicts in hand, and creates none. */
  lemma OtherStepExplained(s: State, a: Action, before: seq<Action>, history: seq<Action>)
    requires Inv(s) && Explained(s, before) && !a.Inspect? && Next(s, a, before, history)
    ensures Explained(Apply(s, a), history)
  {
    var t := Apply(s, a);
    StepColumns(s, a);
    forall f | f in t.db.files && t.db.files[f].scan != AwaitingScan
      ensures LastFinding(history, f) == Cause(t.db.files[f].scan)
    {
      NextFinding(s, a, before, history, f);
      if f in s.db.files { RecordedHasCause(s, a, f, before); } else { NewFileWaits(s, a, f); }
    }
    forall pid, f, v | pid in t.procs && Brings(t.procs[pid], f, v) ensures LastFinding(history, f) == Cause(v) {
      NextFinding(s, a, before, history, f);
      BringsBefore(s, a, pid, f, v);
    }
  }

  lemma RecordedHasCause(s: State, a: Action, f: FileId, before: seq<Action>)
    requires Inv(s) && Explained(s, before) && f in s.db.files && f in Apply(s, a).db.files
    requires FileBy(s, a, f, s.db.files[f], Apply(s, a).db.files[f])
    requires Apply(s, a).db.files[f].scan != AwaitingScan
    ensures LastFinding(before, f) == Cause(Apply(s, a).db.files[f].scan)
  {
    var scan := Apply(s, a).db.files[f].scan;
    if scan != s.db.files[f].scan {
      assert ProcOk(s, a.pid, s.procs[a.pid]);
      if a.Publish? { assert s.db.items[s.db.files[f].contentId].fileId == f; }
      assert Brings(s.procs[a.pid], f, scan);
    }
  }

  lemma NewFileWaits(s: State, a: Action, f: FileId)
    requires f !in s.db.files && f in Apply(s, a).db.files
    ensures Apply(s, a).db.files[f].scan == AwaitingScan
  {
    if IsUpload(a) { UploadTables(s, a); } else { NoNewRows(s, a); }
  }

  lemma StepExplained(s: State, a: Action, before: seq<Action>, history: seq<Action>)
    requires Inv(s) && Explained(s, before) && Next(s, a, before, history)
    ensures Explained(Apply(s, a), history)
  {
    if a.Inspect? { InspectExplained(s, a, before, history); } else { OtherStepExplained(s, a, before, history); }
  }

  lemma StartExplained(history: seq<Action>)
    ensures Explained(START, history)
  {
  }

  lemma RunNext(actions: seq<Action>)
    requires |actions| > 0
    ensures var before, a := actions[..|actions| - 1], actions[|actions| - 1];
      Next(Run(START, before), a, before, actions) && Run(START, actions) == Apply(Run(START, before), a)
  {
    assert actions == actions[..|actions| - 1] + [actions[|actions| - 1]];
  }

  lemma {:induction false} RunExplained(actions: seq<Action>)
    ensures Explained(Run(START, actions), actions)
    decreases |actions|
  {
    if |actions| == 0 {
      StartExplained(actions);
    } else {
      var before := actions[..|actions| - 1];
      RunExplained(before);
      RunKeeps(before);
      RunNext(actions);
      StepExplained(Run(START, before), actions[|actions| - 1], before, actions);
    }
  }

  /**
    In every run, a file that has a verdict has the one its last inspection found: clean,
    infected, malformed, or not scanned by the antivirus.
   */
  lemma VerdictIsLastFinding(actions: seq<Action>, f: FileId)
    ensures var db := Run(START, actions).db;
      f in db.files ==>
        match db.files[f].scan
        case AwaitingScan => true
        case Clean => LastFinding(actions, f) == Some(FoundClean)
        case Infected => LastFinding(actions, f) == Some(FoundInfected)
        case Suspicious => LastFinding(actions, f) == Some(FoundMalformed)
        case ScanErrored => LastFinding(actions, f) == Some(AntivirusSkipped)
  {
    RunExplained(actions);
  }

  /** A finding was made by some action of the run, by the holder of the file's scan on the row it had loaded. */
  lemma {:induction false} FindingWasMade(actions: seq<Action>, f: FileId) returns (n: nat)
    requires LastFinding(actions, f).Some?
    ensures n < |actions| && Inspects(Run(START, actions[..n]), actions[n], f)
    ensures actions[n].outcome == LastFinding(actions, f).value
    ensures var s := Run(START, actions[..n]); Holds(s.db, actions[n].pid, s.procs[actions[n].pid].lease)
    decreases |actions|
  {
    var m := |actions| - 1;
    if Inspects(Run(START, actions[..m]), actions[m], f) {
      n := m;
      RunKeeps(actions[..m]);
      var s := Run(START, actions[..m]);
      assert ProcOk(s, actions[m].pid, s.procs[actions[m].pid]);
    } else {
      n := FindingWasMade(actions[..m], f);
      assert actions[..m][..n] == actions[..n];
    }
  }

  /** So whatever the public can download, or see, was found clean at its last inspection. */
  lemma PublishedWasFoundClean(actions: seq<Action>, c: ItemId)
    ensures var db := Run(START, actions).db;
      c in db.items && db.items[c].status == Published ==> LastFinding(actions, db.items[c].fileId) == Some(FoundClean)
  {
    RunKeeps(actions);
    var db := Run(START, actions).db;
    if c in db.items {
      VerdictIsLastFinding(actions, db.items[c].fileId);
      assert Coherent(db.items[c], db.files[db.items[c].fileId].scan);
    }
  }
}
