/**
  One owner's storage quota under concurrent transactions.

  A transaction that adds bytes takes the owner's advisory lock, reads the usage, checks it
  and commits; an avatar replacement first locks the avatars it replaces and skips the
  advisory lock when the new file is not larger. Image re-encoding takes neither lock.
 */
module Quota {
  import opened Wrappers

  type RowId = nat
  type TxId = nat

  datatype Kind = ContentFile | ContentImage | Avatar

  /** A row of content_files, content_images or user_images; `live` is deleted_at IS NULL. */
  datatype Row = Row(kind: Kind, size: nat, live: bool)

  /** ownerStorageUsage. */
  function Usage(rows: seq<Row>): nat {
    if |rows| == 0 then 0
    else Usage(rows[..|rows| - 1]) + (if rows[|rows| - 1].live then rows[|rows| - 1].size else 0)
  }

  /** The bytes of the chosen rows. */
  function SizeOf(rows: seq<Row>, chosen: set<RowId>): nat {
    if |rows| == 0 then 0
    else SizeOf(rows[..|rows| - 1], chosen) + (if |rows| - 1 in chosen then rows[|rows| - 1].size else 0)
  }

  predicate LiveAvatar(rows: seq<Row>, r: RowId) {
    r < |rows| && rows[r].kind == Avatar && rows[r].live
  }

  predicate AllLiveAvatars(rows: seq<Row>, chosen: set<RowId>) {
    forall r | r in chosen :: LiveAvatar(rows, r)
  }

  function SoftDeleted(rows: seq<Row>, chosen: set<RowId>): (after: seq<Row>)
    ensures |after| == |rows|
    ensures forall r | 0 <= r < |rows| ::
      after[r] == if r in chosen then rows[r].(live := false) else rows[r]
  {
    seq(|rows|, r requires 0 <= r < |rows| => if r in chosen then rows[r].(live := false) else rows[r])
  }

  predicate Exceeds(limit: int, used: int, delta: int) {
    limit > 0 && delta > limit - used
  }

  // ----- The protocol ------------------------------------------------------------------

  datatype Phase =
    | Gathering                                             // still locking replaced avatars
    | Unmetered(delta: int)                                 // nothing added: no advisory lock
    | Locked(delta: int)                                    // holds the advisory lock
    | Cleared(delta: int, used: nat, ghost growthThen: nat) // has read the usage, and it fits

  datatype Tx = Tx(kind: Kind, size: nat, held: set<RowId>, phase: Phase)

  datatype State = State(
    limit: int,
    rows: seq<Row>,
    txs: map<TxId, Tx>,
    locker: Option<TxId>,
    ghost growth: nat)  // bytes added by re-encoding so far

  datatype Action =
    | Begin(tx: TxId, kind: Kind, size: nat)
    | LockAvatar(tx: TxId, row: RowId)
    | SkipLock(tx: TxId)
    | TakeLock(tx: TxId)
    | ReadUsage(tx: TxId)
    | Commit(tx: TxId, swept: set<RowId>)
    | Abort(tx: TxId)
    | DeleteImage(row: RowId)
    | Reencode(row: RowId, size: nat)

  predicate RowLocked(s: State, r: RowId) {
    exists t | t in s.txs :: r in s.txs[t].held
  }

  predicate LockedByOther(s: State, me: TxId, r: RowId) {
    exists t | t in s.txs :: t != me && r in s.txs[t].held
  }

  function Delta(s: State, tx: Tx): int {
    tx.size - SizeOf(s.rows, tx.held)
  }

  ghost function Ended(s: State, tx: TxId): State {
    s.(txs := s.txs - {tx}, locker := if s.locker == Some(tx) then None else s.locker)
  }

  /** What a replacement may sweep: every avatar it holds, and perhaps others that were live. */
  predicate MaySweep(s: State, id: TxId, swept: set<RowId>)
    requires id in s.txs
  {
    if s.txs[id].held == {} then swept == {}
    else s.txs[id].held <= swept && AllLiveAvatars(s.rows, swept) && forall r | r in swept :: !LockedByOther(s, id, r)
  }

  ghost function Step(s: State, a: Action): State {
    match a
    case Begin(id, kind, size) =>
      if id in s.txs then s else s.(txs := s.txs[id := Tx(kind, size, {}, Gathering)])
    case LockAvatar(id, row) =>
      if id !in s.txs || s.txs[id].kind != Avatar || !s.txs[id].phase.Gathering?
         || !LiveAvatar(s.rows, row) || RowLocked(s, row) then s
      else s.(txs := s.txs[id := s.txs[id].(held := s.txs[id].held + {row})])
    case SkipLock(id) =>
      if id !in s.txs || !s.txs[id].phase.Gathering? || Delta(s, s.txs[id]) > 0 then s
      else s.(txs := s.txs[id := s.txs[id].(phase := Unmetered(Delta(s, s.txs[id])))])
    case TakeLock(id) =>
      if id !in s.txs || !s.txs[id].phase.Gathering? || Delta(s, s.txs[id]) <= 0 || s.locker != None then s
      else s.(txs := s.txs[id := s.txs[id].(phase := Locked(Delta(s, s.txs[id])))], locker := Some(id))
    case ReadUsage(id) =>
      if id !in s.txs || !s.txs[id].phase.Locked? then s
      else
        var delta, used := s.txs[id].phase.delta, Usage(s.rows);
        if Exceeds(s.limit, used, delta) then Ended(s, id)
        else s.(txs := s.txs[id := s.txs[id].(phase := Cleared(delta, used, s.growth))])
    case Commit(id, swept) =>
      if id !in s.txs || s.txs[id].phase.Gathering? || s.txs[id].phase.Locked? || !MaySweep(s, id, swept) then s
      else
        var tx := s.txs[id];
        Ended(s, id).(rows := SoftDeleted(s.rows, swept) + [Row(tx.kind, tx.size, true)])
    case Abort(id) => Ended(s, id)
    case DeleteImage(r) =>
      if r >= |s.rows| || s.rows[r].kind != ContentImage then s else s.(rows := SoftDeleted(s.rows, {r}))
    case Reencode(r, size) =>
      if r >= |s.rows| || s.rows[r].kind == ContentFile || (s.rows[r].kind == Avatar && !s.rows[r].live)
         || RowLocked(s, r) then s
      else s.(rows := s.rows[r := s.rows[r].(size := size)],
              growth := s.growth + if s.rows[r].live && size > s.rows[r].size then size - s.rows[r].size else 0)
  }

  ghost function Run(s: State, actions: seq<Action>): State
    decreases |actions|
  {
    if |actions| == 0 then s else Step(Run(s, actions[..|actions| - 1]), actions[|actions| - 1])
  }

  // ----- Sums --------------------------------------------------------------------------

  lemma {:induction false} SameSizes(rows: seq<Row>, after: seq<Row>, chosen: set<RowId>)
    requires |rows| <= |after|
    requires forall r | r in chosen :: r < |rows| && after[r].size == rows[r].size
    ensures SizeOf(after, chosen) == SizeOf(rows, chosen)
    decreases |after|
  {
    if |after| > 0 {
      var n := |after| - 1;
      var below := set r | r in chosen && r < n;
      if |rows| == |after| {
        Restricted(rows, chosen, n);
        Restricted(after, chosen, n);
        SameSizes(rows[..n], after[..n], below);
      } else {
        assert n !in chosen;
        SameSizes(rows, after[..n], chosen);
      }
    }
  }

  /** Only the indices below the bound matter to a sum over a prefix. */
  lemma {:induction false} Restricted(rows: seq<Row>, chosen: set<RowId>, n: nat)
    requires n <= |rows|
    ensures SizeOf(rows[..n], chosen) == SizeOf(rows[..n], set r | r in chosen && r < n)
  {
    if n > 0 {
      var below := set r | r in chosen && r < n;
      Restricted(rows, chosen, n - 1);
      Restricted(rows, below, n - 1);
      assert (set r | r in below && r < n - 1) == set r | r in chosen && r < n - 1;
      assert rows[..n][..n - 1] == rows[..n - 1];
    }
  }

  lemma {:induction false} MoreRowsMoreBytes(rows: seq<Row>, some: set<RowId>, all: set<RowId>)
    requires some <= all
    ensures SizeOf(rows, some) <= SizeOf(rows, all)
  {
    if |rows| > 0 { MoreRowsMoreBytes(rows[..|rows| - 1], some, all); }
  }

  lemma {:induction false} SoftDeleteFrees(rows: seq<Row>, chosen: set<RowId>)
    requires forall r | r in chosen && r < |rows| :: rows[r].live
    ensures Usage(SoftDeleted(rows, chosen)) == Usage(rows) - SizeOf(rows, chosen)
  {
    if |rows| > 0 {
      var n := |rows| - 1;
      SoftDeleteFrees(rows[..n], chosen);
      assert SoftDeleted(rows, chosen)[..n] == SoftDeleted(rows[..n], chosen);
    }
  }

  lemma {:induction false} SoftDeleteNeverAdds(rows: seq<Row>, chosen: set<RowId>)
    ensures Usage(SoftDeleted(rows, chosen)) <= Usage(rows)
  {
    if |rows| > 0 {
      var n := |rows| - 1;
      SoftDeleteNeverAdds(rows[..n], chosen);
      assert SoftDeleted(rows, chosen)[..n] == SoftDeleted(rows[..n], chosen);
    }
  }

  lemma {:induction false} UsageAfterResize(rows: seq<Row>, r: RowId, size: nat)
    requires r < |rows|
    ensures Usage(rows[r := rows[r].(size := size)]) ==
      Usage(rows) + if rows[r].live then size - rows[r].size else 0
  {
    var n := |rows| - 1;
    var after := rows[r := rows[r].(size := size)];
    if r == n {
      assert after[..n] == rows[..n];
    } else {
      UsageAfterResize(rows[..n], r, size);
      assert after[..n] == rows[..n][r := rows[r].(size := size)];
    }
  }

  lemma UsageAfterInsert(rows: seq<Row>, row: Row)
    ensures Usage(rows + [row]) == Usage(rows) + if row.live then row.size else 0
  {
    assert (rows + [row])[..|rows|] == rows;
  }

  // ----- What the steps do to the rows -------------------------------------------------

  /** Deleting an image frees exactly its bytes. */
  lemma DeletedImageFrees(s: State, r: RowId)
    requires r < |s.rows| && s.rows[r].kind == ContentImage && s.rows[r].live
    ensures var after := Step(s, DeleteImage(r)).rows;
      && after == s.rows[r := s.rows[r].(live := false)]
      && Usage(after) == Usage(s.rows) - s.rows[r].size
  {
    var n := |s.rows|;
    SoftDeleteFrees(s.rows, {r});
    OneSize(s.rows, r);
  }

  lemma {:induction false} OneSize(rows: seq<Row>, r: RowId)
    requires r < |rows|
    ensures SizeOf(rows, {r}) == rows[r].size
  {
    if r < |rows| - 1 { OneSize(rows[..|rows| - 1], r); } else { NoSize(rows[..r], r); }
  }

  lemma {:induction false} NoSize(rows: seq<Row>, r: RowId)
    requires r >= |rows|
    ensures SizeOf(rows, {r}) == 0
  {
    if |rows| > 0 { NoSize(rows[..|rows| - 1], r); }
  }

  /** A commit adds one live row, of the transaction's kind and size, and soft-deletes what it swept. */
  lemma CommitAddsRow(s: State, id: TxId, swept: set<RowId>)
    requires id in s.txs && !s.txs[id].phase.Gathering? && !s.txs[id].phase.Locked? && MaySweep(s, id, swept)
    ensures var t := Step(s, Commit(id, swept));
      && id !in t.txs && |t.rows| == |s.rows| + 1
      && t.rows[|s.rows|] == Row(s.txs[id].kind, s.txs[id].size, true)
      && forall r | 0 <= r < |s.rows| :: t.rows[r] == if r in swept then s.rows[r].(live := false) else s.rows[r]
  {
  }

  /** A transaction that adds nothing skips the advisory lock; any other waits for it, and then for room. */
  lemma LockIffAdds(s: State, id: TxId)
    requires id in s.txs && s.txs[id].phase.Gathering?
    ensures Step(s, SkipLock(id)) != s <==> s.txs[id].size <= SizeOf(s.rows, s.txs[id].held)
    ensures Step(s, TakeLock(id)) != s <==> s.txs[id].size > SizeOf(s.rows, s.txs[id].held) && s.locker == None
  {
  }

  /** The check that the lock protects: within the limit the transaction may commit, beyond it, it ends without a trace. */
  lemma ReadDecides(s: State, id: TxId)
    requires id in s.txs && s.txs[id].phase.Locked?
    ensures var t := Step(s, ReadUsage(id));
      && t.rows == s.rows
      && (if s.limit <= 0 || Usage(s.rows) + s.txs[id].phase.delta <= s.limit
          then id in t.txs && t.txs[id].phase.Cleared? && t.txs[id].phase.delta == s.txs[id].phase.delta
          else id !in t.txs && t.locker != Some(id))
  {
  }

  // ----- The bound ---------------------------------------------------------------------

  ghost predicate TxOk(s: State, id: TxId)
    requires id in s.txs
  {
    var tx := s.txs[id];
    && AllLiveAvatars(s.rows, tx.held)
    && (forall u | u in s.txs && u != id :: tx.held !! s.txs[u].held)
    && (!tx.phase.Gathering? ==> tx.phase.delta == Delta(s, tx))
    && match tx.phase
       case Gathering => true
       case Unmetered(delta) => delta <= 0
       case Locked(_) => s.locker == Some(id)
       case Cleared(delta, used, growthThen) =>
         && s.locker == Some(id)
         && !Exceeds(s.limit, used, delta)
         && Usage(s.rows) + growthThen <= used + s.growth
  }

  ghost predicate Inv(s: State) {
    && (forall id | id in s.txs :: TxOk(s, id))
    && (s.limit > 0 ==> Usage(s.rows) <= s.limit + s.growth)
  }

  /** A transaction's condition outlives other steps: its avatars stay, and usage only follows growth. */
  lemma TxCarriesOver(s: State, t: State, id: TxId)
    requires id in s.txs && TxOk(s, id)
    requires id in t.txs && t.txs[id] == s.txs[id]
    requires t.limit == s.limit && |s.rows| <= |t.rows|
    requires forall r | r in s.txs[id].held && LiveAvatar(s.rows, r) :: t.rows[r] == s.rows[r]
    requires forall u | u in t.txs && u != id :: s.txs[id].held !! t.txs[u].held
    requires s.locker == Some(id) ==> t.locker == Some(id)
    requires s.txs[id].phase.Cleared? ==> Usage(t.rows) + s.growth <= Usage(s.rows) + t.growth
    ensures TxOk(t, id)
  {
    SameSizes(s.rows, t.rows, s.txs[id].held);
  }

  lemma QuietStepKeeps(s: State, a: Action)
    requires Inv(s) && (a.Begin? || a.LockAvatar? || a.SkipLock? || a.TakeLock? || a.ReadUsage? || a.Abort?)
    ensures Inv(Step(s, a))
  {
    var t := Step(s, a);
    forall id | id in t.txs ensures TxOk(t, id) {
      if id in s.txs {
        assert TxOk(s, id);
        if t.txs[id] == s.txs[id] { TxCarriesOver(s, t, id); }
      }
    }
  }

  /** A commit adds at most the checked delta to the usage. */
  lemma CommitUsage(s: State, id: TxId, swept: set<RowId>)
    requires Inv(s) && id in s.txs && MaySweep(s, id, swept)
    ensures Usage(SoftDeleted(s.rows, swept) + [Row(s.txs[id].kind, s.txs[id].size, true)])
      <= Usage(s.rows) + Delta(s, s.txs[id])
  {
    assert TxOk(s, id);
    assert forall r | r in swept && r < |s.rows| :: LiveAvatar(s.rows, r);
    SoftDeleteFrees(s.rows, swept);
    MoreRowsMoreBytes(s.rows, s.txs[id].held, swept);
    UsageAfterInsert(SoftDeleted(s.rows, swept), Row(s.txs[id].kind, s.txs[id].size, true));
  }

  /** Nobody else's locked avatars are swept, and whoever has read the usage holds the advisory lock alone. */
  lemma OthersAfterCommit(s: State, a: Action, id: TxId)
    requires Inv(s) && a.Commit? && Step(s, a) != s && id in Step(s, a).txs
    ensures TxOk(Step(s, a), id)
  {
    assert TxOk(s, id) && TxOk(s, a.tx);
    CommitUsage(s, a.tx, a.swept);
    assert forall r | r in s.txs[id].held :: r !in a.swept;
    TxCarriesOver(s, Step(s, a), id);
  }

  lemma CommitKeeps(s: State, a: Action)
    requires Inv(s) && a.Commit?
    ensures Inv(Step(s, a))
  {
    if Step(s, a) != s {
      assert TxOk(s, a.tx);
      CommitUsage(s, a.tx, a.swept);
      forall id | id in Step(s, a).txs ensures TxOk(Step(s, a), id) { OthersAfterCommit(s, a, id); }
    }
  }

  lemma DeleteImageKeeps(s: State, a: Action)
    requires Inv(s) && a.DeleteImage?
    ensures Inv(Step(s, a))
  {
    var t := Step(s, a);
    if t != s {
      SoftDeleteNeverAdds(s.rows, {a.row});
      forall id | id in t.txs ensures TxOk(t, id) {
        assert TxOk(s, id);
        TxCarriesOver(s, t, id);
      }
    }
  }

  lemma ReencodeKeeps(s: State, a: Action)
    requires Inv(s) && a.Reencode?
    ensures Inv(Step(s, a))
  {
    var t := Step(s, a);
    if t != s {
      UsageAfterResize(s.rows, a.row, a.size);
      forall id | id in t.txs ensures TxOk(t, id) {
        assert TxOk(s, id);
        assert a.row !in s.txs[id].held;
        TxCarriesOver(s, t, id);
      }
    }
  }

  lemma {:induction false} RunKeeps(s: State, actions: seq<Action>)
    requires Inv(s)
    ensures Inv(Run(s, actions))
    decreases |actions|
  {
    if |actions| > 0 {
      var n := |actions| - 1;
      RunKeeps(s, actions[..n]);
      var before, a := Run(s, actions[..n]), actions[n];
      match a
      case Commit(_, _) => CommitKeeps(before, a);
      case DeleteImage(_) => DeleteImageKeeps(before, a);
      case Reencode(_, _) => ReencodeKeeps(before, a);
      case _ => QuietStepKeeps(before, a);
    }
  }

  /**
    Whatever the interleaving, an owner who starts within a positive limit stays within it,
    but for the bytes that re-encoding has added.
   */
  lemma {:induction false} OwnerStaysWithinQuota(limit: int, rows: seq<Row>, actions: seq<Action>)
    requires 0 < limit && Usage(rows) <= limit
    ensures var end := Run(State(limit, rows, map[], None, 0), actions);
      Usage(end.rows) <= limit + end.growth
  {
    RunKeeps(State(limit, rows, map[], None, 0), actions);
    RunKeepsLimit(State(limit, rows, map[], None, 0), actions);
  }

  lemma {:induction false} RunKeepsLimit(s: State, actions: seq<Action>)
    ensures Run(s, actions).limit == s.limit
    decreases |actions|
  {
    if |actions| > 0 { RunKeepsLimit(s, actions[..|actions| - 1]); }
  }

  /** The growth term cannot be dropped: every full quota is exceeded by one re-encoding. */
  lemma ReencodingCanExceed(limit: int, more: nat)
    requires 0 < limit && more > 0
    ensures var full := State(limit, [Row(ContentImage, limit, true)], map[], None, 0);
      Usage(full.rows) == limit && Usage(Run(full, [Reencode(0, limit + more)]).rows) == limit + more
  {
    var full := State(limit, [Row(ContentImage, limit, true)], map[], None, 0);
    var a := Reencode(0, limit + more);
    assert [a][..0] == [];
    assert Run(full, [a]) == Step(Run(full, []), a);
  }

  // ----- The repository's code ---------------------------------------------------------

  /** The owner's rows as the media repository changes them, one whole transaction at a time. */
  class OwnerFiles {
    const limit: int
    var rows: seq<Row>

    constructor (limit: int)
      ensures this.limit == limit && rows == []
    {
      this.limit := limit;
      rows := [];
    }

    method OwnerStorageUsage() returns (used: nat)
      ensures used == Usage(rows)
    {
      used := 0;
      var i := 0;
      while i < |rows|
        invariant 0 <= i <= |rows|
        invariant used == Usage(rows[..i])
      {
        UsageAfterInsert(rows[..i], rows[i]);
        assert rows[..i + 1] == rows[..i] + [rows[i]];
        if rows[i].live { used := used + rows[i].size; }
        i := i + 1;
      }
      assert rows[..|rows|] == rows;
    }

    /** ensureOwnerStorageQuota: accepts exactly what fits, and anything that adds no bytes. */
    method EnsureOwnerStorageQuota(delta: int) returns (ok: bool)
      ensures ok <==> delta <= 0 || limit <= 0 || Usage(rows) + delta <= limit
    {
      if delta <= 0 { return true; }
      var used := OwnerStorageUsage();
      ok := !Exceeds(limit, used, delta);
    }

    /** userAvatarObjectsForReplacement and the loop that adds up what will be replaced. */
    method ReplacedBytes() returns (replaced: set<RowId>, bytes: nat)
      ensures replaced == set r | 0 <= r < |rows| && LiveAvatar(rows, r)
      ensures bytes == SizeOf(rows, replaced)
    {
      replaced, bytes := {}, 0;
      var i := 0;
      while i < |rows|
        invariant 0 <= i <= |rows|
        invariant replaced == set r | 0 <= r < i && LiveAvatar(rows, r)
        invariant bytes == SizeOf(rows[..i], replaced)
      {
        ghost var before := replaced;
        if rows[i].kind == Avatar && rows[i].live {
          replaced, bytes := replaced + {i}, bytes + rows[i].size;
        }
        assert before == set r | r in replaced && r < i;
        Restricted(rows, replaced, i);
        assert rows[..i + 1][..i] == rows[..i];
        i := i + 1;
      }
      assert rows[..|rows|] == rows;
    }

    /** CreateUserAvatar: the new avatar replaces every live one, if that fits. */
    method CreateUserAvatar(size: nat) returns (ok: bool)
      modifies this
      ensures var all := set r | 0 <= r < |old(rows)| && LiveAvatar(old(rows), r);
        && (ok <==> size <= SizeOf(old(rows), all) || limit <= 0
                    || Usage(old(rows)) - SizeOf(old(rows), all) + size <= limit)
        && rows == if ok then SoftDeleted(old(rows), all) + [Row(Avatar, size, true)] else old(rows)
      ensures ok ==> forall r | 0 <= r < |rows| :: LiveAvatar(rows, r) <==> r == |rows| - 1
      ensures ok && limit > 0 && Usage(old(rows)) <= limit ==> Usage(rows) <= limit
    {
      var replaced, bytes := ReplacedBytes();
      ok := EnsureOwnerStorageQuota(size - bytes);
      if !ok { return; }
      var all := rows + [Row(Avatar, size, true)];
      ghost var was := rows;
      SoftDeleteFrees(was, replaced);
      UsageAfterInsert(SoftDeleted(was, replaced), Row(Avatar, size, true));
      if replaced != {} { all := SoftDeleted(all, replaced); }
      assert all == SoftDeleted(was, replaced) + [Row(Avatar, size, true)];
      rows := all;
    }

    /** UploadRepository.Create and CreateContentImage, as far as the quota goes. */
    method Create(kind: Kind, size: nat) returns (ok: bool)
      modifies this
      ensures ok <==> size == 0 || limit <= 0 || Usage(old(rows)) + size <= limit
      ensures rows == if ok then old(rows) + [Row(kind, size, true)] else old(rows)
      ensures limit > 0 && Usage(old(rows)) <= limit ==> Usage(rows) <= limit
    {
      UsageAfterInsert(rows, Row(kind, size, true));
      ok := EnsureOwnerStorageQuota(size);
      if ok { rows := rows + [Row(kind, size, true)]; }
    }
  }
}
