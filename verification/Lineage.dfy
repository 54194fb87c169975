/** Sessions form chains under refresh, one live session per device. */
module Lineage {
  import opened Domain
  import opened Tables
  import opened LoginStore
  import opened Authentication
  import opened Administration
  import opened Service
  import opened Coherence
  import opened Reachability

  type Sessions = map<SessionId, SessionRow>

  /** A rotated session replaced an older one of the same owner and device, which is revoked
      and which nothing else replaced. */
  ghost predicate Replaces(sessions: Sessions, h: Descent, child: SessionId)
    requires child in h.parent
  {
    var old_ := h.parent[child];
    && child in sessions && old_ in sessions
    && sessions[child].owner == sessions[old_].owner && sessions[child].device == sessions[old_].device
    && sessions[old_].revokedAt.Some?
    && old_ in h.successor && h.successor[old_] == child
    && child in h.rank && old_ in h.rank && h.rank[old_] < h.rank[child]
  }

  ghost predicate LinksOk(sessions: Sessions, h: Descent) {
    && (forall c | c in h.parent :: Replaces(sessions, h, c))
    && (forall s | s in h.successor :: h.successor[s] in h.parent && h.parent[h.successor[s]] == s)
  }

  /** Every session came from a login or from a rotation, never from both. */
  ghost predicate Originates(h: Descent, s: SessionId) {
    s in h.rank && h.rank[s] < h.count && (s in h.parent <==> s !in h.source)
  }

  ghost predicate OriginsOk(sessions: Sessions, h: Descent) {
    && (forall s | s in sessions :: Originates(h, s))
    && (forall s | s in h.rank :: s in sessions)
    && (forall s | s in h.source :: s in sessions)
  }

  /** Only the newest session of a device can be live. */
  ghost predicate NewestOk(sessions: Sessions, h: Descent) {
    forall s | s in sessions && sessions[s].revokedAt.None? ::
      sessions[s].device in h.newest && h.newest[sessions[s].device] == s
  }

  ghost predicate DescentOk(sessions: Sessions, h: Descent) {
    LinksOk(sessions, h) && OriginsOk(sessions, h) && NewestOk(sessions, h)
  }

  ghost predicate LineageOk(w: World) {
    match w
    case World(_, st, hist) => DescentOk(st.db.sessions, hist.descent)
  }

  lemma RevokingKeepsLinks(before: Sessions, after: Sessions, h: Descent)
    requires LinksOk(before, h) && OnlyRevokes(before, after)
    ensures LinksOk(after, h)
  {
    forall c | c in h.parent ensures Replaces(after, h, c) {
      assert Replaces(before, h, c);
      var old_ := h.parent[c];
      assert RowEvolves(before[old_], after[old_]) && RowEvolves(before[c], after[c]);
    }
  }

  lemma RevokingKeepsRest(before: Sessions, after: Sessions, h: Descent)
    requires OriginsOk(before, h) && NewestOk(before, h) && OnlyRevokes(before, after)
    ensures OriginsOk(after, h) && NewestOk(after, h)
  {
  }

  lemma RevokingKeeps(before: Sessions, after: Sessions, h: Descent)
    requires DescentOk(before, h) && OnlyRevokes(before, after)
    ensures DescentOk(after, h)
  {
    RevokingKeepsLinks(before, after, h);
    RevokingKeepsRest(before, after, h);
  }

  /** A new session on a device whose other sessions are all revoked. */
  lemma NewestJoins(sessions: Sessions, h: Descent, next: Descent, sid: SessionId, row: SessionRow)
    requires NewestOk(sessions, h) && sid !in sessions && next.newest == h.newest[row.device := sid]
    requires forall s | s in sessions && sessions[s].device == row.device :: sessions[s].revokedAt.Some?
    ensures NewestOk(sessions[sid := row], next)
  {
  }

  lemma OriginsJoin(sessions: Sessions, h: Descent, next: Descent, sid: SessionId, row: SessionRow)
    requires OriginsOk(sessions, h) && sid !in sessions
    requires sid !in h.parent
    requires (exists d, id :: next == ByLogin(h, sid, d, id)) || (exists d, old_ :: next == ByRotation(h, sid, d, old_))
    ensures OriginsOk(sessions[sid := row], next)
  {
    forall s | s in sessions[sid := row] ensures Originates(next, s) {
      if s != sid { assert Originates(h, s); }
    }
  }

  lemma LinksStay(sessions: Sessions, h: Descent, sid: SessionId, row: SessionRow, id: RequestId)
    requires LinksOk(sessions, h) && OriginsOk(sessions, h) && sid !in sessions
    ensures LinksOk(sessions[sid := row], ByLogin(h, sid, row.device, id))
  {
    var next := ByLogin(h, sid, row.device, id);
    forall c | c in next.parent ensures Replaces(sessions[sid := row], next, c) { assert Replaces(sessions, h, c); }
  }

  lemma LinkAdded(sessions: Sessions, h: Descent, sid: SessionId, row: SessionRow, old_: SessionId)
    requires LinksOk(sessions, h) && sid !in sessions && sid !in h.parent
    requires Originates(h, old_) && old_ in sessions && old_ !in h.successor && sessions[old_].revokedAt.Some?
    requires row.owner == sessions[old_].owner && row.device == sessions[old_].device
    ensures LinksOk(sessions[sid := row], ByRotation(h, sid, row.device, old_))
  {
    var next := ByRotation(h, sid, row.device, old_);
    forall c | c in next.parent ensures Replaces(sessions[sid := row], next, c) {
      if c != sid { assert Replaces(sessions, h, c); }
    }
    forall s | s in next.successor ensures next.successor[s] in next.parent && next.parent[next.successor[s]] == s {
      if s != old_ { assert s in h.successor && h.successor[s] in h.parent; }
    }
  }

  lemma RequestKeepsLineage(w: World, op: Op)
    requires LineageOk(w) && Authenticated(op)
    ensures LineageOk(w.(st := Request(w, op).stores))
  {
    var p, v := Admit(w, op.token, AllowedFor(op)), Validated(w, op.token);
    if p.Ok? { UseRevokes(v.st, w.now, p.value, op); }
    RevokingKeeps(w.st.db.sessions, Request(w, op).stores.db.sessions, w.hist.descent);
  }

  /** A login revokes what is live on the device before it adds a session. */
  lemma LoginClearsDevice(db: Db, u: UserId, d: DeviceId, now: Instant)
    requires RowsOk(db) && d in db.devices && db.devices[d] == u
    ensures var mid := RevokedForDevice(WithVerified(db, u), u, d, now).sessions;
            OnlyRevokes(db.sessions, mid) && forall s | s in mid && mid[s].device == d :: mid[s].revokedAt.Some?
  {
    var mid := RevokedForDevice(WithVerified(db, u), u, d, now).sessions;
    ForDeviceOnlyRevokes(WithVerified(db, u), u, d, now);
    forall s | s in mid && mid[s].device == d ensures mid[s].revokedAt.Some? {
      assert BelongsToDevice(db, db.sessions[s]);
    }
  }

  lemma LoginExtends(cfg: Config, now: Instant, signed: Instant, db: Db, h: Descent, u: UserId, d: DeviceId,
                     sid: SessionId,
                     id: RequestId)
    requires RowsOk(db) && DescentOk(db.sessions, h) && sid !in db.sessions
    requires d in db.devices && db.devices[d] == u
    ensures DescentOk(LoggedIn(cfg, db, now, signed, u, d, sid).sessions, ByLogin(h, sid, d, id))
  {
    LoginClearsDevice(db, u, d, now);
    var mid := RevokedForDevice(WithVerified(db, u), u, d, now).sessions;
    RevokingKeeps(db.sessions, mid, h);
    var row := NewSession(cfg, u, d, NewRefresh(cfg, u, sid, signed), now);
    forall x | x in h.parent ensures x != sid { assert Replaces(mid, h, x); }
    LinksStay(mid, h, sid, row, id);
    OriginsJoin(mid, h, ByLogin(h, sid, d, id), sid, row);
    NewestJoins(mid, h, ByLogin(h, sid, d, id), sid, row);
  }

  lemma VerifyKeepsLineage(cfg: Config, w: World, op: Op)
    requires RowsOk(w.st.db) && LoginsOk(w.st.db, w.st.logins) && LineageOk(w) && Enabled(w, op) && op.Verify?
    ensures LineageOk(AfterVerify(cfg, w, op))
  {
    var o := VerifyOutcome(cfg, w.st, w.now, op.signed, op.email, op.code, op.request, op.newSid, op.ttl);
    if o.result.Ok? {
      var request := FindRequest(w.st.logins, w.now, op.request).value;
      LoginExtends(cfg, w.now, op.signed, w.st.db, w.hist.descent, request.user, request.device, op.newSid, op.request);
    }
  }

  /** A rotated session was the one live session of its device. */
  lemma RotationClearsDevice(db: Db, h: Descent, sid: SessionId, now: Instant)
    requires NewestOk(db.sessions, h) && sid in db.sessions && db.sessions[sid].revokedAt.None?
    ensures var mid := RevokedById(db, sid, now).sessions;
            && OnlyRevokes(db.sessions, mid)
            && forall s | s in mid && mid[s].device == db.sessions[sid].device :: mid[s].revokedAt.Some?
  {
  }

  lemma LiveIsNotReplaced(sessions: Sessions, h: Descent, sid: SessionId)
    requires LinksOk(sessions, h) && sid in sessions && sessions[sid].revokedAt.None?
    ensures sid !in h.successor
  {
    forall c | c in h.parent ensures h.parent[c] != sid { assert Replaces(sessions, h, c); }
  }

  lemma RotationJoins(sessions: Sessions, h: Descent, sid: SessionId, row: SessionRow, old_: SessionId)
    requires DescentOk(sessions, h) && sid !in sessions
    requires old_ in sessions && old_ !in h.successor && sessions[old_].revokedAt.Some?
    requires row.owner == sessions[old_].owner && row.device == sessions[old_].device
    requires forall s | s in sessions && sessions[s].device == row.device :: sessions[s].revokedAt.Some?
    ensures DescentOk(sessions[sid := row], ByRotation(h, sid, row.device, old_))
  {
    forall x | x in h.parent ensures x != sid { assert Replaces(sessions, h, x); }
    assert Originates(h, old_);
    LinkAdded(sessions, h, sid, row, old_);
    OriginsJoin(sessions, h, ByRotation(h, sid, row.device, old_), sid, row);
    NewestJoins(sessions, h, ByRotation(h, sid, row.device, old_), sid, row);
  }

  lemma RotationExtends(cfg: Config, now: Instant, signed: Instant, db: Db, h: Descent, c: RefreshClaims,
                        sid: SessionId)
    requires DescentOk(db.sessions, h) && sid !in db.sessions
    requires c.jti in db.sessions && db.sessions[c.jti].revokedAt.None? && db.sessions[c.jti].owner == c.sub
    ensures DescentOk(Rotated(cfg, db, now, signed, c, sid).sessions,
        ByRotation(h, sid, db.sessions[c.jti].device, c.jti))
  {
    RotationClearsDevice(db, h, c.jti, now);
    LiveIsNotReplaced(db.sessions, h, c.jti);
    var mid := RevokedById(db, c.jti, now).sessions;
    RevokingKeeps(db.sessions, mid, h);
    RotationJoins(mid, h, sid,
      NewSession(cfg, c.sub, db.sessions[c.jti].device, NewRefresh(cfg, c.sub, sid, signed), now), c.jti);
  }

  /** A refresh either only revokes, or rotates a live session of the token's subject. */
  ghost predicate RefreshStep(cfg: Config, now: Instant, signed: Instant, db: Db, after: Db, h: Descent, next: Descent,
                              c: RefreshClaims,
                              sid: SessionId) {
    || (OnlyRevokes(db.sessions, after.sessions) && next == h)
    || (&& OwnedAndActive(db, c.jti, c.sub)
        && after == Rotated(cfg, db, now, signed, c, sid)
        && next == ByRotation(h, sid, db.sessions[c.jti].device, c.jti))
  }

  lemma RefreshIsRefreshStep(cfg: Config, w: World, op: Op)
    requires op.Refresh? && op.token.RefreshToken?
    ensures var next := AfterRefresh(cfg, w, op);
            RefreshStep(cfg, w.now, op.signed, w.st.db, next.st.db, w.hist.descent, next.hist.descent,
              op.token.refresh, op.newSid)
  {
    var c := op.token.refresh;
    ByIdOnlyRevokes(w.st.db, c.jti, w.now);
    ForUserOnlyRevokes(w.st.db, c.sub, w.now);
  }

  lemma RefreshStepKeepsLineage(cfg: Config, now: Instant, signed: Instant, db: Db, after: Db, h: Descent,
                                next: Descent,
                                c: RefreshClaims, sid: SessionId)
    requires DescentOk(db.sessions, h) && sid !in db.sessions
    requires RefreshStep(cfg, now, signed, db, after, h, next, c, sid)
    ensures DescentOk(after.sessions, next)
  {
    if OnlyRevokes(db.sessions, after.sessions) && next == h {
      RevokingKeeps(db.sessions, after.sessions, h);
    } else {
      RotationExtends(cfg, now, signed, db, h, c, sid);
    }
  }

  lemma AccessTokenDoesNotRefresh(cfg: Config, w: World, op: Op)
    requires op.Refresh? && op.token.AccessToken?
    ensures AfterRefresh(cfg, w, op) == w
  {
  }

  lemma RefreshKeepsLineage(cfg: Config, w: World, op: Op)
    requires LineageOk(w) && Enabled(w, op) && op.Refresh?
    ensures LineageOk(AfterRefresh(cfg, w, op))
  {
    if op.token.AccessToken? {
      AccessTokenDoesNotRefresh(cfg, w, op);
    } else {
      var next := AfterRefresh(cfg, w, op);
      RefreshIsRefreshStep(cfg, w, op);
      RefreshStepKeepsLineage(cfg, w.now, op.signed, w.st.db, next.st.db, w.hist.descent, next.hist.descent,
        op.token.refresh,
        op.newSid);
    }
  }

  lemma LoginAddsNoSession(cfg: Config, w: World, op: Op)
    requires op.Login?
    ensures AfterLogin(cfg, w, op).st.db.sessions == w.st.db.sessions
    ensures AfterLogin(cfg, w, op).hist.descent == w.hist.descent
  {
  }

  lemma RoleAddsNoSession(st: Stores, u: UserId, role: Role)
    ensures RoleSet(st, u, role).db.sessions == st.db.sessions
  {
  }

  lemma BootstrapAddsNoSession(st: Stores, email: string, newUser: UserId)
    ensures BootstrapStores(st, email, newUser).db.sessions == st.db.sessions
  {
    RoleAddsNoSession(st.(db := WithUser(st.db, email, newUser)), UserFor(st.db, email, newUser), SuperAdmin);
  }

  lemma StepKeepsLineage(cfg: Config, w: World, op: Op)
    requires RowsOk(w.st.db) && LoginsOk(w.st.db, w.st.logins) && LineageOk(w) && Enabled(w, op)
    ensures LineageOk(Apply(cfg, w, op))
  {
    match op
    case Tick(_) =>
    case LoseKey(_) =>
    case Login(_, _, _, _, _, _, _) => LoginAddsNoSession(cfg, w, op);
    case Bootstrap(email, u) => BootstrapAddsNoSession(w.st, email, u);
    case Verify(_, _, _, _, _, _) => VerifyKeepsLineage(cfg, w, op);
    case Refresh(_, _, _, _) => RefreshKeepsLineage(cfg, w, op);
    case _ => RequestKeepsLineage(w, op);
  }

  lemma {:induction false} RunKeepsLineage(cfg: Config, w: World, ops: seq<Op>)
    requires Inv(cfg, w) && LineageOk(w) && ValidRun(cfg, w, ops)
    ensures LineageOk(Run(cfg, w, ops))
    decreases |ops|
  {
    if ops != [] {
      StepKeeps(cfg, w, ops[0]);
      StepKeepsLineage(cfg, w, ops[0]);
      RunKeepsLineage(cfg, Apply(cfg, w, ops[0]), ops[1..]);
    }
  }

  lemma ReachableLineage(cfg: Config, w: World)
    requires Reachable(cfg, w)
    ensures LineageOk(w)
  {
    var ops :| ValidRun(cfg, START, ops) && Run(cfg, START, ops) == w;
    StartHolds(cfg);
    RunKeepsLineage(cfg, START, ops);
  }

  /** The login session a chain starts from. */
  ghost function Root(w: World, s: SessionId): SessionId
    requires LineageOk(w) && s in w.st.db.sessions
    decreases w.hist.descent.rank[s]
  {
    if s in w.hist.descent.parent then
      assert Replaces(w.st.db.sessions, w.hist.descent, s);
      Root(w, w.hist.descent.parent[s])
    else
      assert Originates(w.hist.descent, s);
      s
  }

  lemma {:induction false} RootIsLogin(w: World, s: SessionId)
    requires LineageOk(w) && s in w.st.db.sessions
    ensures var root := Root(w, s);
            && root in w.hist.descent.source && root in w.st.db.sessions
            && w.st.db.sessions[root].owner == w.st.db.sessions[s].owner
            && w.st.db.sessions[root].device == w.st.db.sessions[s].device
    decreases w.hist.descent.rank[s]
  {
    if s in w.hist.descent.parent {
      assert Replaces(w.st.db.sessions, w.hist.descent, s);
      RootIsLogin(w, w.hist.descent.parent[s]);
    } else {
      assert Originates(w.hist.descent, s);
    }
  }

  /** In every reachable state: a session is replaced at most once, by a session of the same
      owner and device, and is then revoked; and a device has at most one live session. */
  lemma ChainsAndDevices(cfg: Config, w: World, a: SessionId, b: SessionId)
    requires Reachable(cfg, w)
    ensures var parent, sessions := w.hist.descent.parent, w.st.db.sessions;
            && (a in parent ==>
                  && a in sessions && parent[a] in sessions && sessions[parent[a]].revokedAt.Some?
                  && sessions[a].owner == sessions[parent[a]].owner && sessions[a].device == sessions[parent[a]].device)
            && (a in parent && b in parent && parent[a] == parent[b] ==> a == b)
            && ((a in sessions && b in sessions && sessions[a].device == sessions[b].device
                 && sessions[a].revokedAt.None? && sessions[b].revokedAt.None?) ==> a == b)
  {
    ReachableLineage(cfg, w);
    if a in w.hist.descent.parent { assert Replaces(w.st.db.sessions, w.hist.descent, a); }
    if b in w.hist.descent.parent { assert Replaces(w.st.db.sessions, w.hist.descent, b); }
  }

  /** A family, the sessions one login led to, never has two live members. */
  lemma OneLiveInFamily(w: World, a: SessionId, b: SessionId)
    requires LineageOk(w)
    requires a in w.st.db.sessions && b in w.st.db.sessions && Root(w, a) == Root(w, b)
    requires w.st.db.sessions[a].revokedAt.None? && w.st.db.sessions[b].revokedAt.None?
    ensures a == b
  {
    RootIsLogin(w, a);
    RootIsLogin(w, b);
  }
}
