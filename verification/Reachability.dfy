/** Every step of the service keeps Redis and the database coherent. */
module Reachability {
  import opened Domain
  import opened AccessStore
  import opened Tables
  import opened LoginStore
  import opened Authentication
  import opened Administration
  import opened Service
  import opened Coherence

  lemma StartHolds(cfg: Config)
    ensures Inv(cfg, START)
  {
  }

  /** Login requests keep naming a device and its owner. */
  lemma LoginsKept(db: Db, after: Db, logins: Logins, left: Logins)
    requires LoginsOk(db, logins)
    requires db.users.Keys <= after.users.Keys
    requires forall d | d in db.devices :: d in after.devices && after.devices[d] == db.devices[d]
    requires forall id | id in left.requests ::
      && id in logins.requests
      && left.requests[id].request.user == logins.requests[id].request.user
      && left.requests[id].request.device == logins.requests[id].request.device
    ensures LoginsOk(after, left)
  {
  }

  lemma LoginKeepsRows(cfg: Config, w: World, op: Op)
    requires Inv(cfg, w) && Enabled(w, op) && op.Login?
    ensures Coherent(cfg, w.now, AfterLogin(cfg, w, op).st.db, w.st.cache, w.hist.issued)
  {
    if op.delivered {
      var u := UserFor(w.st.db, op.email, op.newUser);
      UserAdded(cfg, w.now, w.st.db, w.st.cache, w.hist.issued, op.email, op.newUser);
      var db := WithUser(w.st.db, op.email, op.newUser);
      DeviceAdded(cfg, w.now, db, w.st.cache, w.hist.issued, u, op.client, op.newDevice);
    }
  }

  lemma LoginKeepsRequests(cfg: Config, w: World, op: Op)
    requires RowsOk(w.st.db) && LoginsOk(w.st.db, w.st.logins) && Enabled(w, op) && op.Login?
    ensures LoginsOk(AfterLogin(cfg, w, op).st.db, AfterLogin(cfg, w, op).st.logins)
  {
    var after := AfterLogin(cfg, w, op);
    if !op.delivered {
      LoginsKept(w.st.db, after.st.db, w.st.logins, after.st.logins);
    } else {
      var u := UserFor(w.st.db, op.email, op.newUser);
      var db1 := WithUser(w.st.db, op.email, op.newUser);
      assert u in db1.users && w.st.db.users.Keys <= db1.users.Keys && db1.devices == w.st.db.devices;
      assert after.st.db == WithDevice(db1, u, op.client, op.newDevice);
    }
  }

  lemma LoginKeeps(cfg: Config, w: World, op: Op)
    requires Inv(cfg, w) && Enabled(w, op) && op.Login?
    ensures Inv(cfg, AfterLogin(cfg, w, op))
  {
    LoginKeepsRows(cfg, w, op);
    LoginKeepsRequests(cfg, w, op);
  }

  /** Opening a session: verify the account, revoke the device's sessions, sweep, mint. */
  lemma OpeningKeeps(cfg: Config, now: Instant, signed: Instant, db: Db, cache: Cache, issued: Issued, u: UserId,
                     d: DeviceId,
                     sid: SessionId, pair: TokenPair)
    requires now <= signed
    requires Coherent(cfg, now, db, cache, issued)
    requires u in db.users && d in db.devices && db.devices[d] == u && sid !in db.sessions
    requires pair.refresh == NewRefresh(cfg, u, sid, signed)
    requires pair.access == NewAccess(cfg, u, sid, db.users[u].role, db.users[u].version, now)
    ensures Coherent(cfg, now, LoggedIn(cfg, db, now, signed, u, d, sid), Swept(cache, u), Recorded(issued, pair))
  {
    UserChanged(cfg, now, db, cache, issued, u, db.users[u].(verified := true));
    var verified := WithVerified(db, u);
    var revoked := RevokedForDevice(verified, u, d, now);
    ForDeviceOnlyRevokes(verified, u, d, now);
    SessionsSwept(cfg, now, verified, cache, issued, u, revoked.sessions);
    SessionMinted(cfg, now, signed, revoked, Swept(cache, u), issued, u, d, sid, pair);
  }

  lemma VerifyKeepsRows(cfg: Config, w: World, op: Op)
    requires Inv(cfg, w) && Enabled(w, op) && op.Verify?
    ensures var after := AfterVerify(cfg, w, op);
            Coherent(cfg, after.now, after.st.db, after.st.cache, after.hist.issued)
  {
    var o := VerifyOutcome(cfg, w.st, w.now, op.signed, op.email, op.code, op.request, op.newSid, op.ttl);
    if o.result.Ok? {
      var request := FindRequest(w.st.logins, w.now, op.request).value;
      OpeningKeeps(cfg, w.now, op.signed, w.st.db, w.st.cache, w.hist.issued, request.user, request.device, op.newSid,
        o.result.value);
    }
  }

  lemma VerifyKeeps(cfg: Config, w: World, op: Op)
    requires Inv(cfg, w) && Enabled(w, op) && op.Verify?
    ensures Inv(cfg, AfterVerify(cfg, w, op))
  {
    VerifyKeepsRows(cfg, w, op);
    var after := AfterVerify(cfg, w, op);
    LoginsKept(w.st.db, after.st.db, w.st.logins, after.st.logins);
  }

  lemma EverythingRevoked(cfg: Config, now: Instant, st: Stores, issued: Issued, u: UserId)
    requires StoresOk(cfg, now, st, issued)
    ensures StoresOk(cfg, now, RevokeEverything(st, u, now), issued)
  {
    SessionsSwept(cfg, now, st.db, st.cache, issued, u, RevokedForUser(st.db, u, now).sessions);
  }

  lemma OneRevoked(cfg: Config, now: Instant, st: Stores, issued: Issued, u: UserId, sid: SessionId)
    requires StoresOk(cfg, now, st, issued)
    ensures StoresOk(cfg, now, RevokeOne(st, u, sid, now), issued)
  {
    SessionEnded(cfg, now, st.db, st.cache, issued, u, sid, now);
  }

  lemma RotationKeeps(cfg: Config, now: Instant, signed: Instant, st: Stores, issued: Issued, c: RefreshClaims,
                      sid: SessionId,
                      pair: TokenPair)
    requires now <= signed
    requires StoresOk(cfg, now, st, issued) && c in issued.refresh && sid !in st.db.sessions
    requires RefreshClaimsOutcome(cfg, st, now, signed, c, sid).result == Ok(pair)
    ensures StoresOk(cfg, now, RefreshClaimsOutcome(cfg, st, now, signed, c, sid).stores, Recorded(issued, pair))
  {
    OneRevoked(cfg, now, st, issued, c.sub, c.jti);
    assert RefreshOk(st.db, c);
    assert BelongsToDevice(st.db, st.db.sessions[c.jti]);
    SessionMinted(cfg, now, signed, RevokedById(st.db, c.jti, now), Dropped(st.cache, c.sub, c.jti), issued,
                  c.sub, st.db.sessions[c.jti].device, sid, pair);
  }

  lemma RefusalKeeps(cfg: Config, now: Instant, signed: Instant, st: Stores, issued: Issued, c: RefreshClaims,
                     sid: SessionId)
    requires StoresOk(cfg, now, st, issued) && c in issued.refresh
    requires RefreshClaimsOutcome(cfg, st, now, signed, c, sid).result.Err?
    ensures StoresOk(cfg, now, RefreshClaimsOutcome(cfg, st, now, signed, c, sid).stores, issued)
  {
    EverythingRevoked(cfg, now, st, issued, c.sub);
    OneRevoked(cfg, now, st, issued, c.sub, c.jti);
    KeyDropped(cfg, now, st.db, st.cache, issued, c.sub, c.jti);
    assert RefreshOk(st.db, c);
  }

  lemma RefreshKeeps(cfg: Config, w: World, op: Op)
    requires Inv(cfg, w) && Enabled(w, op) && op.Refresh?
    ensures Inv(cfg, AfterRefresh(cfg, w, op))
  {
    var claims := DecodeRefresh(w.hist.issued, op.token, op.seen);
    if claims.Ok? {
      var o := RefreshClaimsOutcome(cfg, w.st, w.now, op.signed, claims.value, op.newSid);
      if o.result.Ok? {
        RotationKeeps(cfg, w.now, op.signed, w.st, w.hist.issued, claims.value, op.newSid, o.result.value);
      } else {
        RefusalKeeps(cfg, w.now, op.signed, w.st, w.hist.issued, claims.value, op.newSid);
      }
    }
  }

  lemma ValidateKeeps(cfg: Config, w: World, token: Token)
    requires Inv(cfg, w)
    ensures Inv(cfg, Validated(w, token))
  {
    var claims := DecodeAccess(w.hist.issued, token, w.now);
    if claims.Ok? && Fills(w.st.db, w.st.cache, w.now, claims.value) {
      CacheFilled(cfg, w.now, w.st.db, w.st.cache, w.hist.issued, claims.value);
    }
  }

  lemma RowPublished(cfg: Config, now: Instant, st: Stores, issued: Issued, u: UserId, row: UserRow)
    requires StoresOk(cfg, now, st, issued)
    requires u in st.db.users && row.version == st.db.users[u].version + 1
    ensures var db := st.db.(users := st.db.users[u := row]);
            Coherent(cfg, now, db, Published(st.cache, u, row.version), issued) && LoginsOk(db, st.logins)
  {
    UserChanged(cfg, now, st.db, st.cache, issued, u, row);
  }

  lemma RoleSetKeeps(cfg: Config, now: Instant, st: Stores, issued: Issued, u: UserId, role: Role)
    requires StoresOk(cfg, now, st, issued)
    ensures StoresOk(cfg, now, RoleSet(st, u, role), issued)
  {
    if u in st.db.users { RowPublished(cfg, now, st, issued, u, WithRole(st.db, u, role).users[u]); }
  }

  lemma StatusSetKeeps(cfg: Config, now: Instant, st: Stores, issued: Issued, u: UserId, status: Status)
    requires StoresOk(cfg, now, st, issued)
    ensures StoresOk(cfg, now, StatusSet(st, u, status), issued)
  {
    if u in st.db.users { RowPublished(cfg, now, st, issued, u, WithStatus(st.db, u, status).users[u]); }
  }

  lemma ApprovalKeeps(cfg: Config, now: Instant, st: Stores, issued: Issued, actor: Role, u: UserId)
    requires StoresOk(cfg, now, st, issued)
    ensures StoresOk(cfg, now, ApproveDeletionOutcome(st, now, actor, u).stores, issued)
  {
    StatusSetKeeps(cfg, now, st, issued, u, Deleted);
    EverythingRevoked(cfg, now, StatusSet(st, u, Deleted), issued, u);
  }

  // The use cases behind a route change sessions only by revoking them.

  lemma RevocationsRevoke(st: Stores, now: Instant, u: UserId, sid: SessionId)
    ensures OnlyRevokes(st.db.sessions, RevokeOne(st, u, sid, now).db.sessions)
    ensures OnlyRevokes(st.db.sessions, RevokeEverything(st, u, now).db.sessions)
  {
    ByIdOnlyRevokes(st.db, sid, now);
    ForUserOnlyRevokes(st.db, u, now);
  }

  lemma ChangesRevokeNothing(st: Stores, now: Instant, p: Principal, op: Op)
    requires !op.Logout? && !op.RevokeSession? && !op.RevokeAll? && !op.ApproveDeletion?
    ensures Use(st, now, p, op).stores.db.sessions == st.db.sessions
  {
  }

  lemma ApprovalRevokes(st: Stores, now: Instant, actor: Role, u: UserId)
    ensures OnlyRevokes(st.db.sessions, ApproveDeletionOutcome(st, now, actor, u).stores.db.sessions)
  {
    RevocationsRevoke(StatusSet(st, u, Deleted), now, u, 0);
  }

  lemma UseRevokes(st: Stores, now: Instant, p: Principal, op: Op)
    ensures OnlyRevokes(st.db.sessions, Use(st, now, p, op).stores.db.sessions)
  {
    if op.Logout? {
      RevocationsRevoke(st, now, p.user, p.session);
    } else if op.RevokeSession? {
      RevocationsRevoke(st, now, p.user, op.sid);
    } else if op.RevokeAll? {
      RevocationsRevoke(st, now, p.user, 0);
    } else if op.ApproveDeletion? {
      ApprovalRevokes(st, now, p.role, op.target);
    } else {
      ChangesRevokeNothing(st, now, p, op);
    }
  }

  lemma RevokingUseKeeps(cfg: Config, now: Instant, st: Stores, issued: Issued, p: Principal, op: Op)
    requires StoresOk(cfg, now, st, issued) && (op.Logout? || op.RevokeSession? || op.RevokeAll?)
    ensures StoresOk(cfg, now, Use(st, now, p, op).stores, issued)
  {
    match op
    case Logout(_) => OneRevoked(cfg, now, st, issued, p.user, p.session);
    case RevokeSession(_, sid) => OneRevoked(cfg, now, st, issued, p.user, sid);
    case RevokeAll(_) => EverythingRevoked(cfg, now, st, issued, p.user);
  }

  lemma UseKeeps(cfg: Config, now: Instant, st: Stores, issued: Issued, p: Principal, op: Op)
    requires StoresOk(cfg, now, st, issued)
    ensures StoresOk(cfg, now, Use(st, now, p, op).stores, issued)
  {
    match op
    case Logout(_) => RevokingUseKeeps(cfg, now, st, issued, p, op);
    case RevokeSession(_, _) => RevokingUseKeeps(cfg, now, st, issued, p, op);
    case RevokeAll(_) => RevokingUseKeeps(cfg, now, st, issued, p, op);
    case ChangeRole(_, u, role) => RoleSetKeeps(cfg, now, st, issued, u, role);
    case ChangeStatus(_, u, status) => StatusSetKeeps(cfg, now, st, issued, u, status);
    case ApproveDeletion(_, u) => ApprovalKeeps(cfg, now, st, issued, p.role, u);
    case RequestDeletion(_) => StatusSetKeeps(cfg, now, st, issued, p.user, DeletionRequested);
    case _ =>
  }

  lemma RequestKeeps(cfg: Config, w: World, op: Op)
    requires Inv(cfg, w) && Authenticated(op)
    ensures Inv(cfg, w.(st := Request(w, op).stores))
  {
    ValidateKeeps(cfg, w, op.token);
    var p, v := Admit(w, op.token, AllowedFor(op)), Validated(w, op.token);
    if p.Ok? { UseKeeps(cfg, w.now, v.st, w.hist.issued, p.value, op); }
  }

  lemma BootstrapKeeps(cfg: Config, w: World, email: string, newUser: UserId)
    requires Inv(cfg, w) && newUser !in w.st.db.users
    ensures Inv(cfg, w.(st := BootstrapStores(w.st, email, newUser)))
  {
    UserAdded(cfg, w.now, w.st.db, w.st.cache, w.hist.issued, email, newUser);
    var st := w.st.(db := WithUser(w.st.db, email, newUser));
    assert LoginsOk(st.db, st.logins);
    RoleSetKeeps(cfg, w.now, st, w.hist.issued, UserFor(w.st.db, email, newUser), SuperAdmin);
  }

  lemma StepKeeps(cfg: Config, w: World, op: Op)
    requires Inv(cfg, w) && Enabled(w, op)
    ensures Inv(cfg, Apply(cfg, w, op))
  {
    match op
    case Tick(elapsed) => TimePasses(cfg, w.now, w.now + elapsed, w.st.db, w.st.cache, w.hist.issued);
    case LoseKey(sid) => KeyLost(cfg, w.now, w.st.db, w.st.cache, w.hist.issued, sid);
    case Login(_, _, _, _, _, _, _) => LoginKeeps(cfg, w, op);
    case Verify(_, _, _, _, _, _) => VerifyKeeps(cfg, w, op);
    case Refresh(_, _, _, _) => RefreshKeeps(cfg, w, op);
    case Bootstrap(email, u) => BootstrapKeeps(cfg, w, email, u);
    case _ => RequestKeeps(cfg, w, op);
  }

  lemma {:induction false} RunKeeps(cfg: Config, w: World, ops: seq<Op>)
    requires Inv(cfg, w) && ValidRun(cfg, w, ops)
    ensures Inv(cfg, Run(cfg, w, ops))
    decreases |ops|
  {
    if ops != [] {
      StepKeeps(cfg, w, ops[0]);
      RunKeeps(cfg, Apply(cfg, w, ops[0]), ops[1..]);
    }
  }

  lemma ReachableHolds(cfg: Config, w: World)
    requires Reachable(cfg, w)
    ensures Inv(cfg, w)
  {
    var ops :| ValidRun(cfg, START, ops) && Run(cfg, START, ops) == w;
    StartHolds(cfg);
    RunKeeps(cfg, START, ops);
  }

  lemma {:induction false} RunExtends(cfg: Config, w: World, ops: seq<Op>, op: Op)
    requires ValidRun(cfg, w, ops) && Enabled(Run(cfg, w, ops), op)
    ensures ValidRun(cfg, w, ops + [op]) && Run(cfg, w, ops + [op]) == Apply(cfg, Run(cfg, w, ops), op)
    decreases |ops|
  {
    if ops == [] {
      assert (ops + [op])[1..] == [];
    } else {
      assert (ops + [op])[1..] == ops[1..] + [op];
      RunExtends(cfg, Apply(cfg, w, ops[0]), ops[1..], op);
    }
  }

  lemma Reaches(cfg: Config, w: World, op: Op)
    requires Reachable(cfg, w) && Enabled(w, op)
    ensures Reachable(cfg, Apply(cfg, w, op))
  {
    var ops :| ValidRun(cfg, START, ops) && Run(cfg, START, ops) == w;
    RunExtends(cfg, START, ops, op);
  }

  lemma {:induction false} RunReaches(cfg: Config, w: World, ops: seq<Op>)
    requires Reachable(cfg, w) && ValidRun(cfg, w, ops)
    ensures Reachable(cfg, Run(cfg, w, ops))
    decreases |ops|
  {
    if ops != [] {
      Reaches(cfg, w, ops[0]);
      RunReaches(cfg, Apply(cfg, w, ops[0]), ops[1..]);
    }
  }
}
