/**
  When a re-encoding keeps an owner within the quota, exactly. Free space alone does not
  decide it: a transaction that has passed its check may still commit, so its bytes count.
 */
module QuotaRoom {
  import opened Wrappers
  import opened Quota

  predicate Promised(s: State, id: TxId) {
    s.locker == Some(id) && id in s.txs && s.txs[id].phase.Cleared? && s.txs[id].phase.delta > 0
  }

  /** The bytes that the holder of the advisory lock may still add, having passed its check. */
  function Pending(s: State): nat {
    if s.locker.Some? && Promised(s, s.locker.value) then s.txs[s.locker.value].phase.delta else 0
  }

  predicate Room(s: State) {
    Usage(s.rows) + Pending(s) <= s.limit
  }

  /** The bytes by which a re-encoding changes the usage; the row may be deleted, locked or no image. */
  function Change(s: State, r: RowId, size: nat): int {
    if r >= |s.rows| || !s.rows[r].live || s.rows[r].kind == ContentFile || RowLocked(s, r) then 0
    else size - s.rows[r].size
  }

  /** What a re-encoding would have to check, and does not. */
  predicate ReencodingFits(s: State, a: Action) {
    a.Reencode? ==> Usage(s.rows) + Pending(s) + Change(s, a.row, a.size) <= s.limit
  }

  // ----- Every other step keeps room ---------------------------------------------------

  lemma QuietStepKeepsRoom(s: State, a: Action)
    requires Inv(s) && Room(s) && s.limit > 0
    requires a.Begin? || a.LockAvatar? || a.SkipLock? || a.TakeLock? || a.ReadUsage? || a.Abort?
    ensures Room(Step(s, a))
  {
  }

  /** A commit turns at most the promised bytes into used ones; one without the lock adds nothing. */
  lemma CommitKeepsRoom(s: State, a: Action)
    requires Inv(s) && Room(s) && a.Commit?
    ensures Room(Step(s, a))
  {
    if Step(s, a) != s {
      assert TxOk(s, a.tx);
      CommitUsage(s, a.tx, a.swept);
    }
  }

  lemma DeleteImageKeepsRoom(s: State, a: Action)
    requires Room(s) && a.DeleteImage?
    ensures Room(Step(s, a))
  {
    if Step(s, a) != s { SoftDeleteNeverAdds(s.rows, {a.row}); }
  }

  lemma ReencodedUsage(s: State, a: Action)
    requires a.Reencode?
    ensures Usage(Step(s, a).rows) == Usage(s.rows) + Change(s, a.row, a.size)
    ensures Pending(Step(s, a)) == Pending(s) && Step(s, a).txs == s.txs && Step(s, a).limit == s.limit
  {
    if Step(s, a) != s { UsageAfterResize(s.rows, a.row, a.size); }
  }

  /** The recorded growth is what the re-encoding added, and nothing for one that shrinks. */
  lemma RecordedGrowth(s: State, a: Action)
    requires a.Reencode?
    ensures var change := Change(s, a.row, a.size);
      Step(s, a).growth == s.growth + if change > 0 then change else 0
  {
  }

  /** Of all steps, a re-encoding alone can use up the room, and does so exactly when it does not fit. */
  lemma StepRoomIff(s: State, a: Action)
    requires Inv(s) && Room(s) && s.limit > 0
    ensures Room(Step(s, a)) <==> ReencodingFits(s, a)
  {
    match a
    case Commit(_, _) => CommitKeepsRoom(s, a);
    case DeleteImage(_) => DeleteImageKeepsRoom(s, a);
    case Reencode(_, _) => ReencodedUsage(s, a);
    case _ => QuietStepKeepsRoom(s, a);
  }

  // ----- Whole runs --------------------------------------------------------------------

  ghost predicate AllFit(s: State, actions: seq<Action>)
    decreases |actions|
  {
    |actions| > 0 ==>
      && AllFit(s, actions[..|actions| - 1])
      && ReencodingFits(Run(s, actions[..|actions| - 1]), actions[|actions| - 1])
  }

  ghost predicate AlwaysRoom(s: State, actions: seq<Action>)
    decreases |actions|
  {
    Room(Run(s, actions)) && (|actions| > 0 ==> AlwaysRoom(s, actions[..|actions| - 1]))
  }

  /** Through a whole run there is room, with every promise counted, if and only if every re-encoding fits. */
  lemma {:induction false} AlwaysRoomIff(s: State, actions: seq<Action>)
    requires Inv(s) && Room(s) && s.limit > 0
    ensures AlwaysRoom(s, actions) <==> AllFit(s, actions)
    decreases |actions|
  {
    if |actions| > 0 {
      var before := actions[..|actions| - 1];
      AlwaysRoomIff(s, before);
      RunKeeps(s, before);
      RunKeepsLimit(s, before);
      if AlwaysRoom(s, before) { StepRoomIff(Run(s, before), actions[|actions| - 1]); }
    }
  }

  /** An owner who starts within a positive limit stays within it as long as every re-encoding fits. */
  lemma {:induction false} OwnerStaysWithinLimit(limit: int, rows: seq<Row>, actions: seq<Action>)
    requires 0 < limit && Usage(rows) <= limit && AllFit(State(limit, rows, map[], None, 0), actions)
    ensures Usage(Run(State(limit, rows, map[], None, 0), actions).rows) <= limit
  {
    var start := State(limit, rows, map[], None, 0);
    AlwaysRoomIff(start, actions);
    RunKeepsLimit(start, actions);
  }

  // ----- One re-encoding ---------------------------------------------------------------

  predicate NoReencode(actions: seq<Action>) {
    forall i | 0 <= i < |actions| :: !actions[i].Reencode?
  }

  lemma {:induction false} RunKeepsRoom(s: State, actions: seq<Action>)
    requires Inv(s) && Room(s) && s.limit > 0 && NoReencode(actions)
    ensures Room(Run(s, actions))
    decreases |actions|
  {
    if |actions| > 0 {
      var before := actions[..|actions| - 1];
      assert NoReencode(before);
      RunKeepsRoom(s, before);
      RunKeeps(s, before);
      RunKeepsLimit(s, before);
      StepRoomIff(Run(s, before), actions[|actions| - 1]);
    }
  }

  /** A promise can be kept in full: committing and sweeping no more than what is held uses every promised byte. */
  lemma PromiseComesDue(s: State, id: TxId)
    requires Inv(s) && Promised(s, id)
    ensures Usage(Step(s, Commit(id, s.txs[id].held)).rows) == Usage(s.rows) + Pending(s)
  {
    var tx := s.txs[id];
    assert TxOk(s, id);
    assert MaySweep(s, id, tx.held);
    SoftDeleteFrees(s.rows, tx.held);
    UsageAfterInsert(SoftDeleted(s.rows, tx.held), Row(tx.kind, tx.size, true));
  }

  /** Without room, the limit is exceeded already or by one commit. */
  lemma NoRoomOverflows(s: State) returns (rest: seq<Action>)
    requires Inv(s) && !Room(s)
    ensures NoReencode(rest) && Usage(Run(s, rest).rows) > s.limit
  {
    if Pending(s) == 0 {
      rest := [];
    } else {
      var id := s.locker.value;
      var a := Commit(id, s.txs[id].held);
      PromiseComesDue(s, id);
      rest := [a];
      assert rest[..0] == [];
      assert Run(s, rest) == Step(Run(s, []), a);
    }
  }

  /**
    The condition is exact, and the state before the re-encoding decides it: the owner stays
    within the limit in every run without a further re-encoding if and only if the usage,
    the promised bytes and the change fit.
   */
  lemma {:induction false} ReencodingFitsIff(s: State, r: RowId, size: nat)
    requires Inv(s) && Room(s) && s.limit > 0
    ensures Usage(s.rows) + Pending(s) + Change(s, r, size) <= s.limit <==>
      forall rest | NoReencode(rest) :: Usage(Run(Step(s, Reencode(r, size)), rest).rows) <= s.limit
  {
    var a := Reencode(r, size);
    var t := Step(s, a);
    ReencodeKeeps(s, a);
    ReencodedUsage(s, a);
    StepRoomIff(s, a);
    if Room(t) {
      forall rest | NoReencode(rest) ensures Usage(Run(t, rest).rows) <= s.limit {
        RunKeepsRoom(t, rest);
        RunKeepsLimit(t, rest);
      }
    } else {
      var rest := NoRoomOverflows(t);
    }
  }

  lemma PromiseStays(s: State, a: Action, id: TxId)
    requires Inv(s) && a.Reencode? && Promised(s, id)
    ensures Inv(Step(s, a)) && Promised(Step(s, a), id)
    ensures Pending(Step(s, a)) == Pending(s) > 0 && Step(s, a).txs[id].held == s.txs[id].held
    ensures Usage(Step(s, a).rows) == Usage(s.rows) + Change(s, a.row, a.size)
  {
    ReencodeKeeps(s, a);
    ReencodedUsage(s, a);
    ReencodingKeepsLocker(s, a);
  }

  lemma ReencodingKeepsLocker(s: State, a: Action)
    requires a.Reencode?
    ensures Step(s, a).locker == s.locker
  {
  }

  /** A re-encoding that fills the limit, and then the commit that was promised. */
  lemma FilledThenCommitted(s: State, a: Action, id: TxId)
    requires Inv(s) && a.Reencode? && Promised(s, id) && Usage(s.rows) + Change(s, a.row, a.size) == s.limit
    ensures Usage(Step(s, a).rows) == s.limit
    ensures Usage(Step(Step(s, a), Commit(id, s.txs[id].held)).rows) == s.limit + Pending(s) > s.limit
  {
    PromiseStays(s, a, id);
    PromiseComesDue(Step(s, a), id);
  }

  /** The size at which a row fills what is free. */
  function FillingSize(s: State, r: RowId): nat
    requires r < |s.rows| && Room(s)
  {
    s.rows[r].size + s.limit - Usage(s.rows)
  }

  /** Free space is not enough: with a promise open, a re-encoding that leaves the usage within the limit may not fit. */
  lemma FreeSpaceIsNotEnough(s: State, id: TxId, r: RowId)
    requires Inv(s) && Room(s) && s.limit > 0 && Promised(s, id)
    requires r < |s.rows| && s.rows[r].live && s.rows[r].kind != ContentFile && !RowLocked(s, r)
    ensures var a := Reencode(r, FillingSize(s, r));
      && Usage(Step(s, a).rows) == s.limit
      && Usage(Step(Step(s, a), Commit(id, s.txs[id].held)).rows) == s.limit + Pending(s) > s.limit
  {
    FilledThenCommitted(s, Reencode(r, FillingSize(s, r)), id);
  }
}
