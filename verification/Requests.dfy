/** What every authenticated request answers and writes in a reachable state, row by row. */
module Requests {
  import opened Domain
  import opened AccessStore
  import opened Tables
  import opened Authentication
  import opened Administration
  import opened Service
  import opened Coherence
  import opened Reachability
  import opened Guarantees
  import opened Verdicts

  /** A request whose token is refused answers that refusal and leaves everything as it was. */
  lemma RefusedChangesNothing(w: World, op: Op)
    requires Authenticated(op) && Answer(w, op.token).Err?
    ensures Request(w, op) == Outcome(w.st, Err(Answer(w, op.token).error))
  {
  }

  /** Session keys other than these are as before. */
  ghost predicate KeysKept(before: Cache, after: Cache, but: set<SessionId>) {
    forall s | s !in but ::
      (s in after.keys <==> s in before.keys) && (s in before.keys ==> after.keys[s] == before.keys[s])
  }

  /** All validate may write is the cache entry of the session it accepted. */
  lemma ValidationWrites(w: World, token: Token, p: Principal)
    requires Answer(w, token) == Ok(p)
    ensures var st := Validated(w, token).st;
            st == w.st.(cache := st.cache) && KeysKept(w.st.cache, st.cache, {p.session})
  {
  }

  lemma ValidatedReachable(cfg: Config, w: World, token: Token)
    requires Reachable(cfg, w)
    ensures Reachable(cfg, Validated(w, token))
  {
    assert Apply(cfg, w, Validate(token)) == Validated(w, token);
    Reaches(cfg, w, Validate(token));
  }

  // ----- sessions -----

  /** No key of an unexpired session of the user is left, and nobody else's key is touched. */
  ghost predicate SweptOut(w: World, after: Cache, u: UserId) {
    && (forall s | s in w.st.db.sessions && w.st.db.sessions[s].owner == u && w.now < w.st.db.sessions[s].expiresAt ::
          s !in after.keys)
    && KeysKept(w.st.cache, after, set s | s in w.st.db.sessions && w.st.db.sessions[s].owner == u)
  }

  lemma SweepIsOwn(cfg: Config, w: World, u: UserId)
    requires Reachable(cfg, w)
    ensures SweptOut(w, Swept(w.st.cache, u), u)
  {
    forall s | s in w.st.cache.keys
      ensures s in w.st.db.sessions
      ensures w.st.db.sessions[s].owner == u && w.now < w.st.db.sessions[s].expiresAt ==>
          s !in Swept(w.st.cache, u).keys
      ensures w.st.db.sessions[s].owner != u ==> s in Swept(w.st.cache, u).keys {
      KeysAreIndexed(cfg, w, s, u);
      SweepIsExact(cfg, w, u, s);
    }
  }

  lemma SweptAfterValidation(cfg: Config, w: World, token: Token, p: Principal)
    requires Reachable(cfg, w) && Answer(w, token) == Ok(p)
    ensures SweptOut(w, Swept(Validated(w, token).st.cache, p.user), p.user)
  {
    ValidationWrites(w, token, p);
    ValidatedReachable(cfg, w, token);
    SweepIsOwn(cfg, Validated(w, token), p.user);
    AcceptedRows(cfg, w, token, p);
  }

  lemma ForUserRevokes(db: Db, u: UserId, at: Instant)
    ensures RevokesAllOwn(db, RevokedForUser(db, u, at), u, at)
  {
  }

  /** Revoking everything revokes every session of the caller, and no other. */
  lemma RevokeAllDecides(cfg: Config, w: World, op: Op, p: Principal)
    requires Reachable(cfg, w) && op.RevokeAll? && Answer(w, op.token) == Ok(p)
    ensures var o := Request(w, op);
            && o.result == Ok(()) && o.stores.logins == w.st.logins
            && RevokesAllOwn(w.st.db, o.stores.db, p.user, w.now)
            && SweptOut(w, o.stores.cache, p.user)
  {
    AcceptedRows(cfg, w, op.token, p);
    ValidationWrites(w, op.token, p);
    ForUserRevokes(w.st.db, p.user, w.now);
    SweptAfterValidation(cfg, w, op.token, p);
  }

  /** Revoking one session: only an unrevoked one of the caller's. */
  lemma RevokeSessionDecides(cfg: Config, w: World, op: Op, p: Principal)
    requires Reachable(cfg, w) && op.RevokeSession? && Answer(w, op.token) == Ok(p)
    ensures var o, sessions := Request(w, op), w.st.db.sessions;
            && o.stores.logins == w.st.logins && KeysKept(w.st.cache, o.stores.cache, {p.session, op.sid})
            && o.result == (if op.sid !in sessions then Err(SessionNotFound)
                            else if sessions[op.sid].owner != p.user then Err(Forbidden)
                            else if sessions[op.sid].revokedAt.Some? then Err(SessionAlreadyRevoked)
                            else Ok(()))
            && (if o.result.Ok?
                then RevokesOwn(w.st.db, o.stores.db, p.user, op.sid, w.now) && op.sid !in o.stores.cache.keys
                else o.stores.db == w.st.db)
  {
    AcceptedRows(cfg, w, op.token, p);
    ValidationWrites(w, op.token, p);
  }

  /** Logging out always succeeds: the caller's own session is revoked, if it was not. */
  lemma LogoutDecides(cfg: Config, w: World, op: Op, p: Principal)
    requires Reachable(cfg, w) && op.Logout? && Answer(w, op.token) == Ok(p)
    ensures var o, sessions := Request(w, op), w.st.db.sessions;
            && o.result == Ok(()) && o.stores.logins == w.st.logins
            && p.session in sessions && sessions[p.session].owner == p.user
            && (if sessions[p.session].revokedAt.None?
                then RevokesOwn(w.st.db, o.stores.db, p.user, p.session, w.now) else o.stores.db == w.st.db)
            && p.session !in o.stores.cache.keys && KeysKept(w.st.cache, o.stores.cache, {p.session})
  {
    AcceptedRows(cfg, w, op.token, p);
    ValidationWrites(w, op.token, p);
    if w.st.db.sessions[p.session].revokedAt.Some? {
      assert w.st.db.sessions[p.session := w.st.db.sessions[p.session]] == w.st.db.sessions;
    }
  }

  // ----- roles and statuses -----

  /** Redis has exactly this version of the user. */
  ghost predicate Announced(cache: Cache, u: UserId, version: int) {
    u in cache.versions && cache.versions[u] == version
  }

  lemma VersionIsExact(cfg: Config, w: World, u: UserId)
    requires Reachable(cfg, w) && u in w.st.db.users
    ensures u in w.st.cache.versions ==> w.st.cache.versions[u] == w.st.db.users[u].version
  {
    ReachableHolds(cfg, w);
    assert VersionKnown(w.st.cache, u, w.st.db.users[u].version);
  }

  lemma RoleIsSet(st: Stores, u: UserId, role: Role)
    requires u in st.db.users && (u in st.cache.versions ==> st.cache.versions[u] == st.db.users[u].version)
    ensures var after := RoleSet(st, u, role);
            && RoleWritten(st.db, after.db, u, role) && after.logins == st.logins && after.cache.keys == st.cache.keys
            && Announced(after.cache, u, st.db.users[u].version + 1)
  {
  }

  lemma StatusIsSet(st: Stores, u: UserId, status: Status)
    requires u in st.db.users && (u in st.cache.versions ==> st.cache.versions[u] == st.db.users[u].version)
    ensures var after := StatusSet(st, u, status);
            && StatusWritten(st.db, after.db, u, status) && after.logins == st.logins
            && after.cache.keys == st.cache.keys && Announced(after.cache, u, st.db.users[u].version + 1)
            && after.cache.index == st.cache.index
  {
  }

  /** Only an active SUPER_ADMIN changes roles; then the role becomes the requested one. */
  lemma ChangeRoleDecides(cfg: Config, w: World, op: Op, p: Principal)
    requires Reachable(cfg, w) && op.ChangeRole? && Answer(w, op.token) == Ok(p)
    ensures p.user in w.st.db.users
    ensures var o, users := Request(w, op), w.st.db.users;
            && o.stores.logins == w.st.logins && KeysKept(w.st.cache, o.stores.cache, {p.session})
            && o.result == (if users[p.user].role != SuperAdmin then Err(Forbidden)
                            else if op.target !in users then Err(UserNotFound)
                            else Ok(()))
            && (if o.result.Ok?
                then RoleWritten(w.st.db, o.stores.db, op.target, op.role)
                     && Announced(o.stores.cache, op.target, users[op.target].version + 1)
                else o.stores.db == w.st.db)
  {
    AcceptedRows(cfg, w, op.token, p);
    ValidationWrites(w, op.token, p);
    if op.target in w.st.db.users {
      ValidatedReachable(cfg, w, op.token);
      VersionIsExact(cfg, Validated(w, op.token), op.target);
      RoleIsSet(Validated(w, op.token).st, op.target, op.role);
    }
  }

  /** A SUPER_ADMIN may manage anyone, an ADMIN plain users. */
  predicate Manages(actor: Role, target: Role) { actor == SuperAdmin || (actor == Admin && target == User) }

  lemma ChangeStatusDecides(cfg: Config, w: World, op: Op, p: Principal)
    requires Reachable(cfg, w) && op.ChangeStatus? && Answer(w, op.token) == Ok(p)
    ensures p.user in w.st.db.users
    ensures var o, users := Request(w, op), w.st.db.users;
            && o.stores.logins == w.st.logins && KeysKept(w.st.cache, o.stores.cache, {p.session})
            && o.result == (if users[p.user].role == User then Err(Forbidden)
                            else if op.target !in users then Err(UserNotFound)
                            else if !Manages(users[p.user].role, users[op.target].role) then Err(Forbidden)
                            else Ok(()))
            && (if o.result.Ok?
                then StatusWritten(w.st.db, o.stores.db, op.target, op.status)
                     && Announced(o.stores.cache, op.target, users[op.target].version + 1)
                else o.stores.db == w.st.db)
  {
    AcceptedRows(cfg, w, op.token, p);
    ValidationWrites(w, op.token, p);
    if op.target in w.st.db.users {
      ValidatedReachable(cfg, w, op.token);
      VersionIsExact(cfg, Validated(w, op.token), op.target);
      StatusIsSet(Validated(w, op.token).st, op.target, op.status);
    }
  }

  /** An account asking for its own deletion is no longer active. */
  lemma RequestDeletionDecides(cfg: Config, w: World, op: Op, p: Principal)
    requires Reachable(cfg, w) && op.RequestDeletion? && Answer(w, op.token) == Ok(p)
    ensures p.user in w.st.db.users
    ensures var o := Request(w, op);
            && o.result == Ok(()) && o.stores.logins == w.st.logins
            && KeysKept(w.st.cache, o.stores.cache, {p.session})
            && StatusWritten(w.st.db, o.stores.db, p.user, DeletionRequested)
            && Announced(o.stores.cache, p.user, w.st.db.users[p.user].version + 1)
  {
    AcceptedRows(cfg, w, op.token, p);
    ValidationWrites(w, op.token, p);
    ValidatedReachable(cfg, w, op.token);
    VersionIsExact(cfg, Validated(w, op.token), p.user);
    StatusIsSet(Validated(w, op.token).st, p.user, DeletionRequested);
  }

  lemma DeletionIsApproved(st: Stores, now: Instant, u: UserId)
    requires u in st.db.users && (u in st.cache.versions ==> st.cache.versions[u] == st.db.users[u].version)
    ensures var after := RevokeEverything(StatusSet(st, u, Deleted), u, now);
            && DeletionWritten(st.db, after.db, u, now) && after.logins == st.logins
            && after.cache.keys == Swept(st.cache, u).keys && Announced(after.cache, u, st.db.users[u].version + 1)
  {
    StatusIsSet(st, u, Deleted);
    ForUserRevokes(StatusSet(st, u, Deleted).db, u, now);
  }

  lemma ApprovalWrites(cfg: Config, w: World, target: UserId)
    requires Reachable(cfg, w) && target in w.st.db.users
    ensures var after := RevokeEverything(StatusSet(w.st, target, Deleted), target, w.now);
            && DeletionWritten(w.st.db, after.db, target, w.now) && after.logins == w.st.logins
            && Announced(after.cache, target, w.st.db.users[target].version + 1)
            && SweptOut(w, after.cache, target)
  {
    VersionIsExact(cfg, w, target);
    DeletionIsApproved(w.st, w.now, target);
    SweepIsOwn(cfg, w, target);
  }

  lemma ApprovalAnswers(st: Stores, now: Instant, actor: Role, target: UserId)
    ensures var o, users := ApproveDeletionOutcome(st, now, actor, target), st.db.users;
            && o.result == (if target !in users then Err(UserNotFound)
                            else if !Manages(actor, users[target].role) then Err(Forbidden)
                            else if users[target].status != DeletionRequested then Err(InvalidStatusTransition)
                            else Ok(()))
            && o.stores == if o.result.Ok? then RevokeEverything(StatusSet(st, target, Deleted), target, now) else st
  {
  }

  lemma ApprovalRuns(w: World, op: Op, p: Principal)
    requires op.ApproveDeletion? && Answer(w, op.token) == Ok(p)
    ensures var st := Validated(w, op.token).st;
            Request(w, op) == if p.role == User then Outcome(st, Err(Forbidden))
                              else ApproveDeletionOutcome(st, w.now, p.role, op.target)
  {
  }

  /** An account is deleted only after asking for it, by someone who may manage it. */
  lemma ApproveDeletionDecides(cfg: Config, w: World, op: Op, p: Principal)
    requires Reachable(cfg, w) && op.ApproveDeletion? && Answer(w, op.token) == Ok(p)
    ensures p.user in w.st.db.users
    ensures var o, users := Request(w, op), w.st.db.users;
            && o.stores.logins == w.st.logins
            && o.result == (if users[p.user].role == User then Err(Forbidden)
                            else if op.target !in users then Err(UserNotFound)
                            else if !Manages(users[p.user].role, users[op.target].role) then Err(Forbidden)
                            else if users[op.target].status != DeletionRequested then Err(InvalidStatusTransition)
                            else Ok(()))
            && (if o.result.Ok?
                then DeletionWritten(w.st.db, o.stores.db, op.target, w.now)
                     && Announced(o.stores.cache, op.target, users[op.target].version + 1)
                     && SweptOut(Validated(w, op.token), o.stores.cache, op.target)
                else o.stores.db == w.st.db)
  {
    AcceptedRows(cfg, w, op.token, p);
    ValidationWrites(w, op.token, p);
    ApprovalRuns(w, op, p);
    ApprovalAnswers(Validated(w, op.token).st, w.now, p.role, op.target);
    if op.target in w.st.db.users {
      ValidatedReachable(cfg, w, op.token);
      ApprovalWrites(cfg, Validated(w, op.token), op.target);
    }
  }

  // ----- guards the route makes superfluous -----

  /** The use cases refuse by themselves what the route or validate should not have let through, in
      any state, and then change nothing. */
  lemma OwnGuards(st: Stores, now: Instant, p: Principal, op: Op)
    ensures op.Logout? && (p.session !in st.db.sessions || st.db.sessions[p.session].owner != p.user) ==>
      Use(st, now, p, op) == Outcome(st, Err(if p.session !in st.db.sessions then SessionNotFound else Forbidden))
    ensures op.ChangeRole? && p.role != SuperAdmin ==> Use(st, now, p, op) == Outcome(st, Err(Forbidden))
    ensures (op.ChangeStatus? || op.ApproveDeletion?) && op.target in st.db.users
            && !Manages(p.role, st.db.users[op.target].role) ==>
      Use(st, now, p, op) == Outcome(st, Err(Forbidden))
    ensures op.RequestDeletion? && (p.user !in st.db.users || st.db.users[p.user].status != Active) ==>
      Use(st, now, p, op) == Outcome(st, Err(if p.user !in st.db.users then UserNotFound else InvalidStatusTransition))
  {
  }

  // ----- bootstrap -----

  lemma FirstSuperAdmin(st: Stores, email: string, newUser: UserId)
    requires email !in st.db.emails && newUser !in st.cache.versions
    ensures var after := BootstrapStores(st, email, newUser);
            && after.logins == st.logins && after.cache.keys == st.cache.keys
            && after.db == st.db.(users := st.db.users[newUser := UserRow(email, SuperAdmin, Active, 2, false)],
                                  emails := st.db.emails[email := newUser])
            && Announced(after.cache, newUser, 2)
  {
    var mid := st.db.users[newUser := NewUser(email)];
    assert mid[newUser := UserRow(email, SuperAdmin, Active, 2, false)]
        == st.db.users[newUser := UserRow(email, SuperAdmin, Active, 2, false)];
  }

  /** After a bootstrap the email's account exists as a SUPER_ADMIN. An account that was one already
      is left alone; another keeps all but role and version; a missing one is created. Nobody else's
      row changes, and Redis knows a version that went up. */
  lemma BootstrapDecides(cfg: Config, w: World, email: string, newUser: UserId)
    requires Reachable(cfg, w) && newUser !in w.st.db.users
    ensures var before, after := w.st.db, BootstrapStores(w.st, email, newUser);
            && after.logins == w.st.logins && after.cache.keys == w.st.cache.keys
            && if email in before.emails then
                 var u := before.emails[email];
                 && u in before.users
                 && (if before.users[u].role == SuperAdmin then after == w.st
                     else RoleWritten(before, after.db, u, SuperAdmin)
                          && Announced(after.cache, u, before.users[u].version + 1))
               else
                 && after.db == before.(users := before.users[newUser := UserRow(email, SuperAdmin, Active, 2, false)],
                                        emails := before.emails[email := newUser])
                 && Announced(after.cache, newUser, 2)
  {
    ReachableHolds(cfg, w);
    if email in w.st.db.emails {
      VersionIsExact(cfg, w, w.st.db.emails[email]);
      RoleIsSet(w.st, w.st.db.emails[email], SuperAdmin);
    } else {
      FirstSuperAdmin(w.st, email, newUser);
    }
  }
}
