/**
  Likes and comments with the counters kept beside them. Every counter update runs in the
  transaction that changes the rows it counts; decrements are clamped at zero.
 */
module Social {
  import opened Wrappers

  type ItemId = nat
  type UserId = nat
  type CommentId = nat

  /** `open` stands for published, public, not hidden and not deleted; other transactions change it. */
  datatype Item = Item(open: bool, likesCount: int, commentsCount: int)

  datatype CommentStatus = Visible | PendingModeration | HiddenComment

  datatype Comment = Comment(contentId: ItemId, author: UserId, parent: Option<CommentId>, status: CommentStatus)

  datatype Tables = Tables(
    items: map<ItemId, Item>,
    likes: set<(ItemId, UserId)>,
    comments: map<CommentId, Comment>)

  function Greatest(a: int, b: int): int {
    if a >= b then a else b
  }

  predicate IsOpen(t: Tables, id: ItemId) {
    id in t.items && t.items[id].open
  }

  // ----- The transactions --------------------------------------------------------------

  /** INSERT ... ON CONFLICT DO NOTHING, and a count of one more only if a row was inserted. */
  function Like(t: Tables, id: ItemId, user: UserId): Option<Tables> {
    if !IsOpen(t, id) then None
    else if (id, user) in t.likes then Some(t)
    else Some(t.(likes := t.likes + {(id, user)},
                 items := t.items[id := t.items[id].(likesCount := t.items[id].likesCount + 1)]))
  }

  function Unlike(t: Tables, id: ItemId, user: UserId): Option<Tables> {
    if !IsOpen(t, id) then None
    else if (id, user) !in t.likes then Some(t)
    else Some(t.(likes := t.likes - {(id, user)},
                 items := t.items[id := t.items[id].(likesCount := Greatest(t.items[id].likesCount - 1, 0))]))
  }

  predicate ParentOk(t: Tables, id: ItemId, parent: Option<CommentId>) {
    parent.Some? ==>
      && parent.value in t.comments
      && t.comments[parent.value].contentId == id
      && t.comments[parent.value].status == Visible
  }

  function CreateComment(t: Tables, id: ItemId, user: UserId, parent: Option<CommentId>, c: CommentId): Option<Tables> {
    if !IsOpen(t, id) || !ParentOk(t, id, parent) || c in t.comments then None
    else Some(t.(comments := t.comments[c := Comment(id, user, parent, Visible)],
                 items := t.items[id := t.items[id].(commentsCount := t.items[id].commentsCount + 1)]))
  }

  /** ApproveComment and HideComment. */
  function ReviewComment(t: Tables, c: CommentId, approve: bool): Option<Tables> {
    if c !in t.comments then None
    else
      var before := t.comments[c];
      var after := if approve then Visible else HiddenComment;
      var allowed := before.status == PendingModeration || (!approve && before.status == Visible);
      if !allowed || before.contentId !in t.items then None
      else
        var delta := (if after == Visible then 1 else 0) - (if before.status == Visible then 1 else 0);
        var item := t.items[before.contentId];
        Some(t.(comments := t.comments[c := before.(status := after)],
                items := if delta == 0 then t.items
                         else t.items[before.contentId :=
                                item.(commentsCount := Greatest(item.commentsCount + delta, 0))]))
  }

  datatype Action =
    | AddItem(id: ItemId)
    | SetOpen(id: ItemId, open: bool)
    | LikeItem(id: ItemId, user: UserId)
    | UnlikeItem(id: ItemId, user: UserId)
    | Write(id: ItemId, user: UserId, parent: Option<CommentId>, c: CommentId)
    | Review(c: CommentId, approve: bool)

  function Step(t: Tables, a: Action): Tables {
    match a
    case AddItem(id) => if id in t.items then t else t.(items := t.items[id := Item(false, 0, 0)])
    case SetOpen(id, open) => if id !in t.items then t else t.(items := t.items[id := t.items[id].(open := open)])
    case LikeItem(id, user) => Like(t, id, user).GetOr(t)
    case UnlikeItem(id, user) => Unlike(t, id, user).GetOr(t)
    case Write(id, user, parent, c) => CreateComment(t, id, user, parent, c).GetOr(t)
    case Review(c, approve) => ReviewComment(t, c, approve).GetOr(t)
  }

  function Run(t: Tables, actions: seq<Action>): Tables
    decreases |actions|
  {
    if |actions| == 0 then t else Step(Run(t, actions[..|actions| - 1]), actions[|actions| - 1])
  }

  const EMPTY: Tables := Tables(map[], {}, map[])

  // ----- The counters ------------------------------------------------------------------

  function LikesOf(likes: set<(ItemId, UserId)>, id: ItemId): set<(ItemId, UserId)> {
    set l | l in likes && l.0 == id
  }

  function VisibleOf(comments: map<CommentId, Comment>, id: ItemId): set<CommentId> {
    set c | c in comments && comments[c].contentId == id && comments[c].status == Visible
  }

  predicate CountsRight(t: Tables, id: ItemId)
    requires id in t.items
  {
    && t.items[id].likesCount == |LikesOf(t.likes, id)|
    && t.items[id].commentsCount == |VisibleOf(t.comments, id)|
  }

  /** Rows refer to existing items, and each counter is the number of rows it stands for. */
  ghost predicate Inv(t: Tables) {
    && (forall l | l in t.likes :: l.0 in t.items)
    && (forall c | c in t.comments :: t.comments[c].contentId in t.items)
    && (forall id | id in t.items :: CountsRight(t, id))
  }

  lemma LikeCounted(likes: set<(ItemId, UserId)>, l: (ItemId, UserId), id: ItemId)
    ensures l !in likes ==>
      |LikesOf(likes + {l}, id)| == |LikesOf(likes, id)| + if l.0 == id then 1 else 0
    ensures l in likes ==>
      |LikesOf(likes - {l}, id)| == |LikesOf(likes, id)| - if l.0 == id then 1 else 0
  {
    if l.0 == id {
      assert l !in likes ==> LikesOf(likes + {l}, id) == LikesOf(likes, id) + {l};
      assert l in likes ==> LikesOf(likes - {l}, id) == LikesOf(likes, id) - {l};
    } else {
      assert LikesOf(likes + {l}, id) == LikesOf(likes, id) == LikesOf(likes - {l}, id);
    }
  }

  /** The effect of one comment row on the number of visible comments. */
  lemma CommentCounted(comments: map<CommentId, Comment>, c: CommentId, after: Comment, id: ItemId)
    requires c in comments ==> comments[c].contentId == after.contentId
    ensures |VisibleOf(comments[c := after], id)| == |VisibleOf(comments, id)|
      + (if after.contentId == id && after.status == Visible then 1 else 0)
      - (if after.contentId == id && c in comments && comments[c].status == Visible then 1 else 0)
  {
    var was, now := VisibleOf(comments, id), VisibleOf(comments[c := after], id);
    assert now - {c} == was - {c};
    SetAside(was, c);
    SetAside(now, c);
  }

  lemma SetAside(s: set<CommentId>, c: CommentId)
    ensures |s| == |s - {c}| + if c in s then 1 else 0
  {
    if c in s { assert s == (s - {c}) + {c}; } else { assert s - {c} == s; }
  }

  lemma StepKeepsInv(t: Tables, a: Action)
    requires Inv(t)
    ensures Inv(Step(t, a))
  {
    var u := Step(t, a);
    forall id | id in u.items ensures CountsRight(u, id) {
      if id in t.items { assert CountsRight(t, id); }
      match a
      case AddItem(_) =>
        if id !in t.items { assert LikesOf(t.likes, id) == {} && VisibleOf(t.comments, id) == {}; }
      case LikeItem(item, user) => LikeCounted(t.likes, (item, user), id);
      case UnlikeItem(item, user) => LikeCounted(t.likes, (item, user), id);
      case Write(item, user, parent, c) =>
        if c !in t.comments { CommentCounted(t.comments, c, Comment(item, user, parent, Visible), id); }
      case Review(c, approve) =>
        if c in u.comments { CommentCounted(t.comments, c, u.comments[c], id); }
      case _ =>
    }
  }

  lemma {:induction false} RunKeepsInv(actions: seq<Action>)
    ensures Inv(Run(EMPTY, actions))
    decreases |actions|
  {
    if |actions| > 0 {
      RunKeepsInv(actions[..|actions| - 1]);
      StepKeepsInv(Run(EMPTY, actions[..|actions| - 1]), actions[|actions| - 1]);
    }
  }

  /** In every run the counters are the numbers of likes and of visible comments. */
  lemma CountersAreExact(actions: seq<Action>, id: ItemId)
    requires id in Run(EMPTY, actions).items
    ensures CountsRight(Run(EMPTY, actions), id)
  {
    RunKeepsInv(actions);
  }

  /** A counter about to be decremented is positive, so the clamp never changes a value. */
  lemma ClampNeverActs(actions: seq<Action>, id: ItemId, user: UserId, c: CommentId)
    ensures var t := Run(EMPTY, actions);
      && (id in t.items && (id, user) in t.likes ==>
            Greatest(t.items[id].likesCount - 1, 0) == t.items[id].likesCount - 1)
      && (c in t.comments && t.comments[c].status == Visible ==>
            t.comments[c].contentId in t.items
            && var n := t.items[t.comments[c].contentId].commentsCount; Greatest(n - 1, 0) == n - 1)
  {
    RunKeepsInv(actions);
    var t := Run(EMPTY, actions);
    if id in t.items && (id, user) in t.likes {
      assert CountsRight(t, id) && (id, user) in LikesOf(t.likes, id);
    }
    if c in t.comments && t.comments[c].status == Visible {
      assert CountsRight(t, t.comments[c].contentId) && c in VisibleOf(t.comments, t.comments[c].contentId);
    }
  }

  /** Liking and unliking in turn restores every table, and either twice is once. */
  lemma LikesToggle(t: Tables, id: ItemId, user: UserId)
    requires Inv(t) && IsOpen(t, id)
    ensures var liked := Like(t, id, user).value; var unliked := Unlike(t, id, user).value;
      && Like(liked, id, user) == Some(liked) && Unlike(unliked, id, user) == Some(unliked)
      && ((id, user) !in t.likes ==> Unlike(liked, id, user) == Some(t))
      && ((id, user) in t.likes ==> Like(unliked, id, user) == Some(t))
  {
    assert CountsRight(t, id);
    if (id, user) !in t.likes {
      assert t.likes + {(id, user)} - {(id, user)} == t.likes;
      assert Unlike(Like(t, id, user).value, id, user).value.items == t.items;
    } else {
      assert (id, user) in LikesOf(t.likes, id);
      assert t.likes - {(id, user)} + {(id, user)} == t.likes;
      assert Like(Unlike(t, id, user).value, id, user).value.items == t.items;
    }
  }

  // ----- What is accepted --------------------------------------------------------------

  /** Likes need an open item; a like is then there, or gone, and the answer is the new number of likes. */
  lemma LikeAccepted(t: Tables, id: ItemId, user: UserId)
    requires Inv(t)
    ensures var liked, unliked := Like(t, id, user), Unlike(t, id, user);
      && (liked.Some? <==> id in t.items && t.items[id].open)
      && (unliked.Some? <==> id in t.items && t.items[id].open)
      && (liked.Some? ==> liked.value.likes == t.likes + {(id, user)} && liked.value.comments == t.comments)
      && (unliked.Some? ==> unliked.value.likes == t.likes - {(id, user)} && unliked.value.comments == t.comments)
  {
  }

  /** A comment needs an open item and, as a reply, a visible comment on it; it is visible at once. */
  lemma CommentAccepted(t: Tables, id: ItemId, user: UserId, parent: Option<CommentId>, c: CommentId)
    requires c !in t.comments
    ensures var after := CreateComment(t, id, user, parent, c);
      && (after.Some? <==>
            && id in t.items && t.items[id].open
            && (parent.Some? ==> parent.value in t.comments && t.comments[parent.value].contentId == id
                                 && t.comments[parent.value].status == Visible))
      && (after.Some? ==>
            after.value.comments == t.comments[c := Comment(id, user, parent, Visible)] && after.value.likes == t.likes)
  {
  }

  /** A pending comment can be approved or hidden, a visible one hidden; nothing but its status changes. */
  lemma ReviewAccepted(t: Tables, c: CommentId, approve: bool)
    requires Inv(t)
    ensures var after := ReviewComment(t, c, approve);
      && (after.Some? <==>
            && c in t.comments
            && (t.comments[c].status == PendingModeration || (!approve && t.comments[c].status == Visible)))
      && (after.Some? ==>
            && after.value.likes == t.likes && c in after.value.comments
            && after.value.comments == t.comments[c := t.comments[c].(status := after.value.comments[c].status)]
            && after.value.comments[c].status == if approve then Visible else HiddenComment)
  {
  }

  // ----- The repository's methods ------------------------------------------------------

  class Store {
    var items: map<ItemId, Item>
    var likes: set<(ItemId, UserId)>
    var comments: map<CommentId, Comment>

    ghost function Rows(): Tables
      reads this
    {
      Tables(items, likes, comments)
    }

    constructor ()
      ensures Rows() == EMPTY
    {
      items, likes, comments := map[], {}, map[];
    }

    method LikeItem(id: ItemId, user: UserId) returns (count: Option<int>)
      modifies this
      ensures Rows() == Like(old(Rows()), id, user).GetOr(old(Rows()))
      ensures count == if IsOpen(old(Rows()), id) then Some(items[id].likesCount) else None
      ensures Inv(old(Rows())) ==> Inv(Rows())
    {
      if Inv(Rows()) { StepKeepsInv(Rows(), Action.LikeItem(id, user)); }
      if id !in items || !items[id].open { return None; }
      var likesCount := items[id].likesCount;
      if (id, user) !in likes {
        likes := likes + {(id, user)};
        likesCount := likesCount + 1;
        items := items[id := items[id].(likesCount := likesCount)];
      }
      count := Some(likesCount);
    }

    method UnlikeItem(id: ItemId, user: UserId) returns (count: Option<int>)
      modifies this
      ensures Rows() == Unlike(old(Rows()), id, user).GetOr(old(Rows()))
      ensures count == if IsOpen(old(Rows()), id) then Some(items[id].likesCount) else None
      ensures Inv(old(Rows())) ==> Inv(Rows())
    {
      if Inv(Rows()) { StepKeepsInv(Rows(), Action.UnlikeItem(id, user)); }
      if id !in items || !items[id].open { return None; }
      var likesCount := items[id].likesCount;
      if (id, user) in likes {
        likes := likes - {(id, user)};
        likesCount := Greatest(likesCount - 1, 0);
        items := items[id := items[id].(likesCount := likesCount)];
      }
      count := Some(likesCount);
    }

    method WriteComment(id: ItemId, user: UserId, parent: Option<CommentId>, c: CommentId) returns (ok: bool)
      requires c !in comments
      modifies this
      ensures ok == (IsOpen(old(Rows()), id) && ParentOk(old(Rows()), id, parent))
      ensures Rows() == CreateComment(old(Rows()), id, user, parent, c).GetOr(old(Rows()))
      ensures Inv(old(Rows())) ==> Inv(Rows())
    {
      if Inv(Rows()) { StepKeepsInv(Rows(), Write(id, user, parent, c)); }
      if id !in items || !items[id].open { return false; }
      if parent.Some? && (parent.value !in comments || comments[parent.value].contentId != id
                          || comments[parent.value].status != Visible) { return false; }
      comments := comments[c := Comment(id, user, parent, Visible)];
      items := items[id := items[id].(commentsCount := items[id].commentsCount + 1)];
      ok := true;
    }

    method ReviewOne(c: CommentId, approve: bool) returns (ok: bool)
      modifies this
      ensures ok == ReviewComment(old(Rows()), c, approve).Some?
      ensures Rows() == ReviewComment(old(Rows()), c, approve).GetOr(old(Rows()))
      ensures Inv(old(Rows())) ==> Inv(Rows())
    {
      if Inv(Rows()) { StepKeepsInv(Rows(), Review(c, approve)); }
      if c !in comments { return false; }
      var before := comments[c];
      var newStatus := if approve then Visible else HiddenComment;
      if before.status != PendingModeration && (approve || before.status != Visible) { return false; }
      if before.contentId !in items { return false; }
      comments := comments[c := before.(status := newStatus)];
      var counterDelta := 0;
      if before.status != Visible && newStatus == Visible {
        counterDelta := 1;
      } else if before.status == Visible && newStatus != Visible {
        counterDelta := -1;
      }
      if counterDelta != 0 {
        var item := items[before.contentId];
        items := items[before.contentId := item.(commentsCount := Greatest(item.commentsCount + counterDelta, 0))];
      }
      ok := true;
    }
  }
}
