/**
  Refresh-token rotation: a handler reads the session of the presented token, makes a fresh
  pair and swaps it in only if the session still holds the token and is not revoked.
 */
module Sessions {
  import opened Wrappers

  type UserId = nat
  type SessionId = nat
  type RequestId = nat
  type Time = int

  /** Each pair of random tokens is numbered as it is made; no two are alike. */
  datatype Token = Access(pair: nat) | Refresh(pair: nat)

  datatype Session = Session(user: UserId, pair: nat, accessUntil: Time, refreshUntil: Time, revoked: bool)

  type Table = map<SessionId, Session>

  // ----- The statements on auth_sessions -----------------------------------------------

  /** findSessionByTokenHash, for either column. */
  predicate Accepts(rows: Table, sid: SessionId, token: Token, now: Time) {
    && sid in rows && !rows[sid].revoked
    && rows[sid].pair == token.pair
    && (if token.Access? then rows[sid].accessUntil > now else rows[sid].refreshUntil > now)
  }

  /** RotateSession: a compare-and-swap on the refresh token. */
  function Rotated(rows: Table, sid: SessionId, current: nat, pair: nat, until: (Time, Time), now: Time)
    : Option<Table>
  {
    if !Accepts(rows, sid, Refresh(current), now) then None
    else Some(rows[sid := rows[sid].(pair := pair, accessUntil := until.0, refreshUntil := until.1)])
  }

  /** Revokes what a password change or a ban revokes: the user's sessions, perhaps but for one. */
  function RevokedFor(rows: Table, user: UserId, keep: Option<SessionId>): Table {
    map sid | sid in rows ::
      if rows[sid].user == user && keep != Some(sid) then rows[sid].(revoked := true) else rows[sid]
  }

  /** RevokeByRefreshTokenHash. */
  function LoggedOut(rows: Table, pair: nat): Table {
    map sid | sid in rows :: if rows[sid].pair == pair then rows[sid].(revoked := true) else rows[sid]
  }

  // ----- The machine -------------------------------------------------------------------

  /** A handler between its read and its write, with the tokens it has made meanwhile. */
  datatype Request =
    | LoggingIn(user: UserId, pair: nat)
    | Refreshing(sid: SessionId, current: nat, pair: nat)

  /** History of a pair: still with its request, in its session, or used up. */
  datatype Home = InRequest(req: RequestId) | InSession(sid: SessionId) | Spent

  /** `homes` has one entry per pair made; `won` counts the rotations each presented pair has won. */
  datatype State = State(rows: Table, requests: map<RequestId, Request>, homes: seq<Home>, won: multiset<nat>)

  datatype Action =
    | VerifyLogin(req: RequestId, user: UserId)
    | CreateSession(req: RequestId, sid: SessionId, until: (Time, Time))
    | FindByRefresh(req: RequestId, sid: SessionId, token: Token, now: Time)
    | Rotate(req: RequestId, until: (Time, Time), now: Time)
    | Abandon(req: RequestId)
    | Logout(pair: nat)
    | ConfirmPasswordChange(user: UserId)
    | ChangePassword(user: UserId, keep: SessionId)
    | BanUser(user: UserId)

  function Step(s: State, a: Action): State {
    match a
    case VerifyLogin(req, user) =>
      if req in s.requests then s
      else s.(requests := s.requests[req := LoggingIn(user, |s.homes|)], homes := s.homes + [InRequest(req)])
    case CreateSession(req, sid, until) =>
      if req !in s.requests || !s.requests[req].LoggingIn? || sid in s.rows || s.requests[req].pair >= |s.homes| then s
      else
        var r := s.requests[req];
        s.(rows := s.rows[sid := Session(r.user, r.pair, until.0, until.1, false)],
           requests := s.requests - {req}, homes := s.homes[r.pair := InSession(sid)])
    case FindByRefresh(req, sid, token, now) =>
      if req in s.requests || !token.Refresh? || !Accepts(s.rows, sid, token, now) then s
      else
        s.(requests := s.requests[req := Refreshing(sid, token.pair, |s.homes|)],
           homes := s.homes + [InRequest(req)])
    case Rotate(req, until, now) =>
      if req !in s.requests || !s.requests[req].Refreshing? then s
      else
        var r := s.requests[req];
        (match Rotated(s.rows, r.sid, r.current, r.pair, until, now)
         case None => s.(requests := s.requests - {req})
         case Some(rows) =>
           if r.current >= |s.homes| || r.pair >= |s.homes| then s
           else State(rows, s.requests - {req}, s.homes[r.current := Spent][r.pair := InSession(r.sid)],
                      s.won + multiset{r.current}))
    case Abandon(req) => s.(requests := s.requests - {req})
    case Logout(pair) => s.(rows := LoggedOut(s.rows, pair))
    case ConfirmPasswordChange(user) => s.(rows := RevokedFor(s.rows, user, None))
    case ChangePassword(user, keep) => s.(rows := RevokedFor(s.rows, user, Some(keep)))
    case BanUser(user) => s.(rows := RevokedFor(s.rows, user, None))
  }

  function Run(s: State, actions: seq<Action>): State
    decreases |actions|
  {
    if |actions| == 0 then s else Step(Run(s, actions[..|actions| - 1]), actions[|actions| - 1])
  }

  const START: State := State(map[], map[], [], multiset{})

  // ----- Each token wins at most once --------------------------------------------------

  predicate SessionOk(s: State, sid: SessionId)
    requires sid in s.rows
  {
    s.rows[sid].pair < |s.homes| && s.homes[s.rows[sid].pair] == InSession(sid)
  }

  predicate RequestOk(s: State, req: RequestId)
    requires req in s.requests
  {
    var r := s.requests[req];
    && r.pair < |s.homes| && s.homes[r.pair] == InRequest(req)
    && (r.Refreshing? ==> r.sid in s.rows && r.current < |s.homes| && r.current != r.pair)
  }

  ghost predicate Inv(s: State) {
    && (forall sid | sid in s.rows :: SessionOk(s, sid))
    && (forall req | req in s.requests :: RequestOk(s, req))
    && (forall p | p in s.won :: s.won[p] == 1 && p < |s.homes| && s.homes[p] == Spent)
  }

  /** What the invariant says of the request and the session that an action is about. */
  lemma ActionFacts(s: State, a: Action)
    requires Inv(s)
    ensures (a.CreateSession? || a.Rotate?) && a.req in s.requests ==> RequestOk(s, a.req)
    ensures a.Rotate? && a.req in s.requests && s.requests[a.req].Refreshing? ==> SessionOk(s, s.requests[a.req].sid)
    ensures a.FindByRefresh? && a.sid in s.rows ==> SessionOk(s, a.sid)
  {
    if (a.CreateSession? || a.Rotate?) && a.req in s.requests { assert RequestOk(s, a.req); }
  }

  lemma SessionsKeep(s: State, a: Action, sid: SessionId)
    requires Inv(s) && sid in Step(s, a).rows
    ensures SessionOk(Step(s, a), sid)
  {
    ActionFacts(s, a);
    if sid in s.rows { assert SessionOk(s, sid); }
  }

  lemma RequestsKeep(s: State, a: Action, req: RequestId)
    requires Inv(s) && req in Step(s, a).requests
    ensures RequestOk(Step(s, a), req)
  {
    ActionFacts(s, a);
    if req in s.requests { assert RequestOk(s, req); }
  }

  lemma StepKeepsInv(s: State, a: Action)
    requires Inv(s)
    ensures Inv(Step(s, a))
  {
    forall sid | sid in Step(s, a).rows ensures SessionOk(Step(s, a), sid) { SessionsKeep(s, a, sid); }
    forall req | req in Step(s, a).requests ensures RequestOk(Step(s, a), req) { RequestsKeep(s, a, req); }
    WonKeeps(s, a);
  }

  lemma WonKeeps(s: State, a: Action)
    requires Inv(s)
    ensures var t := Step(s, a);
      forall p | p in t.won :: t.won[p] == 1 && p < |t.homes| && t.homes[p] == Spent
  {
    ActionFacts(s, a);
  }

  lemma {:induction false} RunKeepsInv(s: State, actions: seq<Action>)
    requires Inv(s)
    ensures Inv(Run(s, actions))
    decreases |actions|
  {
    if |actions| > 0 {
      RunKeepsInv(s, actions[..|actions| - 1]);
      StepKeepsInv(Run(s, actions[..|actions| - 1]), actions[|actions| - 1]);
    }
  }

  /** In every run each refresh token wins at most one rotation, however often it is presented at once. */
  lemma TokenWinsOnce(actions: seq<Action>, pair: nat)
    ensures Run(START, actions).won[pair] <= 1
  {
    RunKeepsInv(START, actions);
    var s := Run(START, actions);
    if pair in s.won { assert s.won[pair] == 1; }
  }

  /** Two sessions never answer to one token. */
  lemma TokenNamesOneSession(actions: seq<Action>, i: SessionId, j: SessionId, token: Token, now: Time)
    ensures var s := Run(START, actions);
      Accepts(s.rows, i, token, now) && Accepts(s.rows, j, token, now) ==> i == j
  {
    RunKeepsInv(START, actions);
    var s := Run(START, actions);
    if i in s.rows && j in s.rows { assert SessionOk(s, i) && SessionOk(s, j); }
  }

  // ----- What a pair is good for -------------------------------------------------------

  ghost predicate Lasts(rows: Table, sid: SessionId, pair: nat, until: (Time, Time)) {
    forall t: Time ::
      && (Accepts(rows, sid, Access(pair), t) <==> t < until.0)
      && (Accepts(rows, sid, Refresh(pair), t) <==> t < until.1)
  }

  /** A rotation that succeeds ends the old pair at once; the new one lasts until the two times it was given. */
  lemma RotationGrants(rows: Table, sid: SessionId, current: nat, pair: nat, until: (Time, Time), now: Time)
    ensures var after := Rotated(rows, sid, current, pair, until, now);
      && (after.Some? <==>
            sid in rows && !rows[sid].revoked && rows[sid].pair == current && now < rows[sid].refreshUntil)
      && (after.Some? ==>
            && sid in after.value && after.value[sid].user == rows[sid].user
            && Lasts(after.value, sid, pair, until)
            && (current != pair ==> forall t ::
                  !Accepts(after.value, sid, Access(current), t) && !Accepts(after.value, sid, Refresh(current), t)))
  {
  }

  /** Only a refresh token that is accepted starts a rotation, and of the session it is accepted for. */
  lemma RefreshBegins(s: State, req: RequestId, sid: SessionId, token: Token, now: Time)
    requires req !in s.requests
    ensures var t := Step(s, FindByRefresh(req, sid, token, now));
      && t.rows == s.rows
      && (req in t.requests <==> token.Refresh? && Accepts(s.rows, sid, token, now))
      && (req in t.requests ==> t.requests[req] == Refreshing(sid, token.pair, |s.homes|))
  {
  }

  /** A login opens one session of its user, with tokens that last as long as they were given. */
  lemma LoginGrants(s: State, req: RequestId, sid: SessionId, until: (Time, Time))
    requires Inv(s) && req in s.requests && s.requests[req].LoggingIn? && sid !in s.rows
    ensures var t := Step(s, CreateSession(req, sid, until));
      && sid in t.rows && t.rows[sid].user == s.requests[req].user && t.rows == s.rows[sid := t.rows[sid]]
      && Lasts(t.rows, sid, s.requests[req].pair, until)
  {
    assert RequestOk(s, req);
  }

  /** Logging out ends both tokens of the pair, and no others. */
  lemma LogoutEnds(s: State, pair: nat, sid: SessionId, token: Token, now: Time)
    ensures Accepts(Step(s, Logout(pair)).rows, sid, token, now) <==>
      Accepts(s.rows, sid, token, now) && token.pair != pair
  {
  }

  /** A password change by the user ends every session of the user but the one kept; a ban and a reset end all. */
  lemma RevocationEnds(s: State, user: UserId, keep: SessionId, sid: SessionId, token: Token, now: Time)
    ensures Accepts(Step(s, ChangePassword(user, keep)).rows, sid, token, now) <==>
      Accepts(s.rows, sid, token, now) && (s.rows[sid].user != user || sid == keep)
    ensures Accepts(Step(s, ConfirmPasswordChange(user)).rows, sid, token, now) <==>
      Accepts(s.rows, sid, token, now) && s.rows[sid].user != user
    ensures Accepts(Step(s, BanUser(user)).rows, sid, token, now) <==>
      Accepts(s.rows, sid, token, now) && s.rows[sid].user != user
  {
  }

  // ----- After a password change -------------------------------------------------------

  /** The pairs of this user's logins that are verified but have no session yet. */
  predicate InFlightLogin(s: State, user: UserId, pair: nat) {
    exists req | req in s.requests ::
      s.requests[req].LoggingIn? && s.requests[req].user == user && s.requests[req].pair == pair
  }

  ghost predicate Accepted(s: State, user: UserId, token: Token, now: Time) {
    exists sid :: Accepts(s.rows, sid, token, now) && s.rows[sid].user == user
  }

  /** A pair that may still serve the user: made after the change, or by a login then in flight. */
  predicate Newer(moment: State, user: UserId, pair: nat) {
    pair >= |moment.homes| || InFlightLogin(moment, user, pair)
  }

  predicate SessionCut(moment: State, user: UserId, rows: Table, sid: SessionId)
    requires sid in rows
  {
    rows[sid].user == user && !rows[sid].revoked ==> Newer(moment, user, rows[sid].pair)
  }

  predicate RequestCut(moment: State, user: UserId, rows: Table, r: Request) {
    match r
    case LoggingIn(u, pair) => u == user ==> Newer(moment, user, pair)
    case Refreshing(sid, _, pair) =>
      pair >= |moment.homes| || (sid in rows && (rows[sid].user == user ==> rows[sid].revoked))
  }

  /** Relative to a change at state `moment`: the user's open sessions and requests hold newer pairs only. */
  ghost predicate CutOff(moment: State, user: UserId, s: State) {
    && |moment.homes| <= |s.homes|
    && (forall sid | sid in s.rows :: SessionCut(moment, user, s.rows, sid))
    && (forall req | req in s.requests :: RequestCut(moment, user, s.rows, s.requests[req]))
  }

  lemma ChangeCutsOff(s: State, user: UserId)
    requires Inv(s)
    ensures CutOff(s, user, Step(s, ConfirmPasswordChange(user)))
  {
    var t := Step(s, ConfirmPasswordChange(user));
    forall req | req in t.requests ensures RequestCut(s, user, t.rows, t.requests[req]) {
      assert RequestOk(s, req);
    }
  }

  lemma SessionsStayCut(moment: State, user: UserId, s: State, a: Action, sid: SessionId)
    requires Inv(s) && CutOff(moment, user, s) && sid in Step(s, a).rows
    ensures SessionCut(moment, user, Step(s, a).rows, sid)
  {
    ActionFacts(s, a);
    if sid in s.rows { assert SessionCut(moment, user, s.rows, sid); }
    if (a.CreateSession? || a.Rotate?) && a.req in s.requests {
      assert RequestCut(moment, user, s.rows, s.requests[a.req]);
    }
  }

  /** A request that begins makes a pair of its own. */
  lemma NewRequestIsCut(moment: State, user: UserId, s: State, a: Action, req: RequestId)
    requires Inv(s) && CutOff(moment, user, s) && req in Step(s, a).requests && req !in s.requests
    ensures RequestCut(moment, user, Step(s, a).rows, Step(s, a).requests[req])
  {
  }

  /** One under way goes on with its own, and no revoked session is ever opened again. */
  lemma OldRequestStaysCut(moment: State, user: UserId, s: State, a: Action, req: RequestId)
    requires Inv(s) && CutOff(moment, user, s) && req in Step(s, a).requests && req in s.requests
    ensures RequestCut(moment, user, Step(s, a).rows, Step(s, a).requests[req])
  {
    assert RequestCut(moment, user, s.rows, s.requests[req]);
    if s.requests[req].Refreshing? && s.requests[req].sid in s.rows { RowsStay(s, a, s.requests[req].sid); }
  }

  lemma RowsStay(s: State, a: Action, sid: SessionId)
    requires sid in s.rows
    ensures sid in Step(s, a).rows && Step(s, a).rows[sid].user == s.rows[sid].user
    ensures s.rows[sid].revoked ==> Step(s, a).rows[sid].revoked
  {
  }

  lemma RequestsStayCut(moment: State, user: UserId, s: State, a: Action, req: RequestId)
    requires Inv(s) && CutOff(moment, user, s) && req in Step(s, a).requests
    ensures RequestCut(moment, user, Step(s, a).rows, Step(s, a).requests[req])
  {
    if req in s.requests { OldRequestStaysCut(moment, user, s, a, req); }
    else { NewRequestIsCut(moment, user, s, a, req); }
  }

  lemma StepKeepsCutOff(moment: State, user: UserId, s: State, a: Action)
    requires Inv(s) && CutOff(moment, user, s)
    ensures CutOff(moment, user, Step(s, a))
  {
    var t := Step(s, a);
    forall sid | sid in t.rows ensures SessionCut(moment, user, t.rows, sid) {
      SessionsStayCut(moment, user, s, a, sid);
    }
    forall req | req in t.requests ensures RequestCut(moment, user, t.rows, t.requests[req]) {
      RequestsStayCut(moment, user, s, a, req);
    }
    PairsOnlyGrow(s, a);
  }

  lemma PairsOnlyGrow(s: State, a: Action)
    ensures |s.homes| <= |Step(s, a).homes|
  {
  }

  lemma {:induction false} RunKeepsCutOff(moment: State, user: UserId, s: State, actions: seq<Action>)
    requires Inv(s) && CutOff(moment, user, s)
    ensures CutOff(moment, user, Run(s, actions))
    decreases |actions|
  {
    if |actions| > 0 {
      RunKeepsCutOff(moment, user, s, actions[..|actions| - 1]);
      RunKeepsInv(s, actions[..|actions| - 1]);
      StepKeepsCutOff(moment, user, Run(s, actions[..|actions| - 1]), actions[|actions| - 1]);
    }
  }

  /**
    After a confirmed password change, no token made before it is ever accepted for the user
    again: not one in a session, nor one that a refresh in flight is about to swap in. The
    only exception is a login that was verified before the change.
   */
  lemma OldTokensStayDead(before: seq<Action>, user: UserId, after: seq<Action>, token: Token, now: Time)
    requires token.pair < |Run(START, before).homes|
    requires !InFlightLogin(Run(START, before), user, token.pair)
    ensures !Accepted(Run(Step(Run(START, before), ConfirmPasswordChange(user)), after), user, token, now)
  {
    var s := Run(START, before);
    RunKeepsInv(START, before);
    var changed := Step(s, ConfirmPasswordChange(user));
    StepKeepsInv(s, ConfirmPasswordChange(user));
    ChangeCutsOff(s, user);
    RunKeepsCutOff(s, user, changed, after);
  }

  /** The exception is real: a login verified before the change still gets its session afterwards. */
  lemma LoginOutlivesChange(s: State, user: UserId, req: RequestId, sid: SessionId, until: Time, now: Time)
    requires Inv(s) && req in s.requests && s.requests[req].LoggingIn? && s.requests[req].user == user
    requires sid !in s.rows && now < until
    ensures var end := Step(Step(s, ConfirmPasswordChange(user)), CreateSession(req, sid, (until, until)));
      Accepted(end, user, Refresh(s.requests[req].pair), now)
  {
    assert RequestOk(s, req);
    var end := Step(Step(s, ConfirmPasswordChange(user)), CreateSession(req, sid, (until, until)));
    assert Accepts(end.rows, sid, Refresh(s.requests[req].pair), now);
  }

  lemma {:induction false} UnusedId(used: set<SessionId>) returns (sid: SessionId)
    ensures forall i | i in used :: i < sid
    decreases |used|
  {
    if used == {} {
      sid := 0;
    } else {
      var i :| i in used;
      sid := UnusedId(used - {i});
      if sid <= i { sid := i + 1; }
      forall j | j in used ensures j < sid { assert j == i || j in used - {i}; }
    }
  }

  /** The token is accepted after a password change in the given state and the further actions. */
  ghost predicate Survives(s: State, user: UserId, token: Token, after: seq<Action>, now: Time) {
    Accepted(Run(Step(s, ConfirmPasswordChange(user)), after), user, token, now)
  }

  lemma LoginSurvives(s: State, user: UserId, token: Token) returns (after: seq<Action>)
    requires Inv(s) && InFlightLogin(s, user, token.pair)
    ensures Survives(s, user, token, after, 0)
  {
    var req :| req in s.requests && s.requests[req].LoggingIn? && s.requests[req].user == user
               && s.requests[req].pair == token.pair;
    var sid := UnusedId(s.rows.Keys);
    var changed, a := Step(s, ConfirmPasswordChange(user)), CreateSession(req, sid, (1, 1));
    after := [a];
    assert RequestOk(s, req);
    assert after[..0] == [];
    assert Run(changed, after) == Step(Run(changed, []), a);
    assert Accepts(Run(changed, after).rows, sid, token, 0);
  }

  /**
    A token made before a confirmed password change can be accepted for the user at some time
    after it if and only if it belongs to a login verified before the change that has no
    session yet.
   */
  lemma {:induction false} OldTokenSurvivesIff(before: seq<Action>, user: UserId, token: Token)
    requires token.pair < |Run(START, before).homes|
    ensures InFlightLogin(Run(START, before), user, token.pair) <==>
      exists after, now :: Survives(Run(START, before), user, token, after, now)
  {
    var s := Run(START, before);
    if InFlightLogin(s, user, token.pair) {
      RunKeepsInv(START, before);
      var after := LoginSurvives(s, user, token);
    } else {
      forall after, now ensures !Survives(s, user, token, after, now) {
        OldTokensStayDead(before, user, after, token, now);
      }
    }
  }

  // ----- The repository and the handler ------------------------------------------------

  class Store {
    var rows: Table

    constructor ()
      ensures rows == map[]
    {
      rows := map[];
    }

    method FindByRefreshToken(pair: nat, now: Time) returns (found: Option<SessionId>)
      ensures found.Some? ==> Accepts(rows, found.value, Refresh(pair), now)
      ensures found.None? ==> forall sid :: !Accepts(rows, sid, Refresh(pair), now)
    {
      var unseen := rows.Keys;
      while unseen != {}
        invariant unseen <= rows.Keys
        invariant forall sid | sid in rows.Keys - unseen :: !Accepts(rows, sid, Refresh(pair), now)
        decreases |unseen|
      {
        var sid :| sid in unseen;
        if rows[sid].pair == pair && !rows[sid].revoked && rows[sid].refreshUntil > now { return Some(sid); }
        unseen := unseen - {sid};
      }
      found := None;
    }

    method RotateSession(sid: SessionId, current: nat, pair: nat, until: (Time, Time), now: Time) returns (ok: bool)
      modifies this
      ensures ok == Rotated(old(rows), sid, current, pair, until, now).Some?
      ensures rows == Rotated(old(rows), sid, current, pair, until, now).GetOr(old(rows))
    {
      if sid !in rows || rows[sid].pair != current || rows[sid].revoked || rows[sid].refreshUntil <= now {
        return false;
      }
      var row := rows[sid];
      row := row.(pair := pair);
      row := row.(accessUntil := until.0, refreshUntil := until.1);
      rows := rows[sid := row];
      ok := true;
    }

    /** The revocation in ConfirmPasswordChange, ChangePassword and BanUser, row by row. */
    method RevokeSessions(user: UserId, keep: Option<SessionId>)
      modifies this
      ensures rows == RevokedFor(old(rows), user, keep)
    {
      var todo := rows.Keys;
      while todo != {}
        invariant todo <= rows.Keys == old(rows).Keys
        invariant forall sid | sid in todo :: rows[sid] == old(rows)[sid]
        invariant forall sid | sid in rows.Keys - todo :: rows[sid] == RevokedFor(old(rows), user, keep)[sid]
        decreases |todo|
      {
        var sid :| sid in todo;
        if rows[sid].user == user && keep != Some(sid) && !rows[sid].revoked {
          rows := rows[sid := rows[sid].(revoked := true)];
        }
        todo := todo - {sid};
      }
      assert rows == RevokedFor(old(rows), user, keep);
    }

    /** The Refresh handler run alone: a live token is swapped for the new pair and is then dead. */
    method RefreshOnce(current: nat, pair: nat, until: (Time, Time), now: Time) returns (ok: bool)
      requires forall i, j | i in rows && j in rows && rows[i].pair == rows[j].pair :: i == j
      requires pair != current
      modifies this
      ensures ok <==> exists sid :: Accepts(old(rows), sid, Refresh(current), now)
      ensures ok ==> forall sid, later :: !Accepts(rows, sid, Refresh(current), later)
      ensures !ok ==> rows == old(rows)
    {
      var found := FindByRefreshToken(current, now);
      if found.None? { return false; }
      ok := RotateSession(found.value, current, pair, until, now);
    }
  }
}
