/** Who can change roles and statuses: validate, require_roles and the use cases composed. */
module Authority {
  import opened Domain
  import opened Authentication
  import opened Administration
  import opened Service
  import opened Coherence
  import opened Reachability

  /** An accepted token speaks for its user as the database has it now, although the fast path
      reads neither role nor status. */
  lemma AcceptedIsCurrent(cfg: Config, w: World, token: Token)
    requires Reachable(cfg, w) && Answer(w, token).Ok?
    ensures var p := Answer(w, token).value;
            && p.user in w.st.db.users
            && w.st.db.users[p.user].role == p.role && w.st.db.users[p.user].version == p.version
            && w.st.db.users[p.user].status.Active?
  {
    ReachableHolds(cfg, w);
    var c, db, cache := token.access, w.st.db, w.st.cache;
    assert AccessOk(cfg, db, c) && Vouched(db, cache, c);
    assert VersionKnown(cache, c.sub, db.users[c.sub].version);
  }

  /** The request was made by an active user whose role is one of these. */
  ghost predicate MadeBy(w: World, op: Op, roles: set<Role>) {
    Authenticated(op) && op.token.AccessToken? && op.token.access in w.hist.issued.access
    && op.token.access.sub in w.st.db.users
    && w.st.db.users[op.token.access.sub].role in roles
    && w.st.db.users[op.token.access.sub].status.Active?
  }

  lemma AdmittedIsMadeBy(cfg: Config, w: World, op: Op)
    requires Reachable(cfg, w) && Authenticated(op) && Admit(w, op.token, AllowedFor(op)).Ok?
    ensures MadeBy(w, op, AllowedFor(op))
    ensures var p := Admit(w, op.token, AllowedFor(op)).value;
            p.user == op.token.access.sub && p.role == w.st.db.users[p.user].role
  {
    AcceptedIsCurrent(cfg, w, op.token);
  }

  /** What a use case may do to a user row, by principal. */
  lemma UseIsLimited(st: Stores, now: Instant, p: Principal, op: Op, u: UserId)
    requires u in st.db.users
    ensures var after := Use(st, now, p, op).stores.db.users;
            && u in after
            && (after[u].role != st.db.users[u].role ==> op.ChangeRole? && op.target == u && p.role.SuperAdmin?)
            && (after[u].status != st.db.users[u].status ==>
                  || (op.RequestDeletion? && p.user == u)
                  || ((op.ChangeStatus? || op.ApproveDeletion?) && op.target == u
                      && (p.role.SuperAdmin? || (p.role.Admin? && st.db.users[u].role.User?))))
  {
  }

  lemma VerifyLeavesAuthority(cfg: Config, w: World, op: Op, u: UserId)
    requires op.Verify? && u in w.st.db.users
    ensures var after := AfterVerify(cfg, w, op).st.db.users;
            u in after && after[u].role == w.st.db.users[u].role && after[u].status == w.st.db.users[u].status
  {
  }

  lemma RotationLeavesUsers(cfg: Config, st: Stores, now: Instant, signed: Instant, c: RefreshClaims, sid: SessionId)
    ensures RefreshClaimsOutcome(cfg, st, now, signed, c, sid).stores.db.users == st.db.users
  {
  }

  lemma RefreshLeavesUsers(cfg: Config, w: World, op: Op)
    requires op.Refresh?
    ensures AfterRefresh(cfg, w, op).st.db.users == w.st.db.users
  {
    if op.token.RefreshToken? { RotationLeavesUsers(cfg, w.st, w.now, op.signed, op.token.refresh, op.newSid); }
  }

  lemma LoginLeavesAuthority(cfg: Config, w: World, op: Op, u: UserId)
    requires op.Login? && Enabled(w, op) && u in w.st.db.users
    ensures var after := AfterLogin(cfg, w, op).st.db.users;
            u in after && after[u] == w.st.db.users[u]
  {
  }

  lemma BootstrapIsLimited(st: Stores, email: string, newUser: UserId, u: UserId)
    requires u in st.db.users && newUser !in st.db.users
    ensures var after := BootstrapStores(st, email, newUser).db.users;
            && u in after && after[u].status == st.db.users[u].status
            && (after[u].role != st.db.users[u].role ==> email in st.db.emails && st.db.emails[email] == u)
  {
  }

  ghost predicate RoleAuthorised(w: World, op: Op, u: UserId) {
    || (op.Bootstrap? && op.email in w.st.db.emails && w.st.db.emails[op.email] == u)
    || (op.ChangeRole? && op.target == u && MadeBy(w, op, {SuperAdmin}))
  }

  ghost predicate StatusAuthorised(w: World, op: Op, u: UserId)
    requires u in w.st.db.users
  {
    || (op.RequestDeletion? && MadeBy(w, op, {SuperAdmin, Admin, User}) && op.token.access.sub == u)
    || ((op.ChangeStatus? || op.ApproveDeletion?) && op.target == u
        && (MadeBy(w, op, {SuperAdmin}) || (MadeBy(w, op, {Admin}) && w.st.db.users[u].role.User?)))
  }

  lemma RequestIsAuthorised(cfg: Config, w: World, op: Op, u: UserId)
    requires Reachable(cfg, w) && Authenticated(op) && u in w.st.db.users
    ensures var before, after := w.st.db.users[u], Request(w, op).stores.db.users;
            && u in after
            && (after[u].role != before.role ==> RoleAuthorised(w, op, u))
            && (after[u].status != before.status ==> StatusAuthorised(w, op, u))
  {
    if Admit(w, op.token, AllowedFor(op)).Ok? {
      AdmittedIsMadeBy(cfg, w, op);
      UseIsLimited(Validated(w, op.token).st, w.now, Admit(w, op.token, AllowedFor(op)).value, op, u);
    }
  }

  /** Over every run: a role changes only by bootstrap or at the request of an active super
      admin; a status changes only at the request of an active super admin, of an active admin
      when the account is a plain user's, or of the account itself asking to be deleted. */
  lemma ChangesAreAuthorised(cfg: Config, w: World, op: Op, u: UserId)
    requires Reachable(cfg, w) && Enabled(w, op) && u in w.st.db.users
    ensures var before, after := w.st.db.users[u], Apply(cfg, w, op).st.db.users;
            && u in after
            && (after[u].role != before.role ==> RoleAuthorised(w, op, u))
            && (after[u].status != before.status ==> StatusAuthorised(w, op, u))
  {
    match op
    case Tick(_) =>
    case LoseKey(_) =>
    case Login(_, _, _, _, _, _, _) => LoginLeavesAuthority(cfg, w, op, u);
    case Verify(_, _, _, _, _, _) => VerifyLeavesAuthority(cfg, w, op, u);
    case Refresh(_, _, _, _) => RefreshLeavesUsers(cfg, w, op);
    case Bootstrap(email, v) => BootstrapIsLimited(w.st, email, v, u);
    case _ => RequestIsAuthorised(cfg, w, op, u);
  }

  // ----- privilege comes from bootstrap -----

  ghost predicate AllPlain(w: World) {
    forall u | u in w.st.db.users :: w.st.db.users[u].role.User?
  }

  lemma UseAddsNobody(st: Stores, now: Instant, p: Principal, op: Op)
    ensures Use(st, now, p, op).stores.db.users.Keys == st.db.users.Keys
  {
  }

  lemma RequestAddsNobody(w: World, op: Op)
    requires Authenticated(op)
    ensures Request(w, op).stores.db.users.Keys == w.st.db.users.Keys
  {
    var p, v := Admit(w, op.token, AllowedFor(op)), Validated(w, op.token);
    if p.Ok? { UseAddsNobody(v.st, w.now, p.value, op); }
  }

  lemma OnlyLoginAdds(cfg: Config, w: World, op: Op)
    requires !op.Bootstrap? && !op.Login?
    ensures Apply(cfg, w, op).st.db.users.Keys == w.st.db.users.Keys
  {
    match op
    case Tick(_) =>
    case LoseKey(_) =>
    case Verify(_, _, _, _, _, _) =>
    case Refresh(_, _, _, _) => RefreshLeavesUsers(cfg, w, op);
    case _ => RequestAddsNobody(w, op);
  }

  lemma LoginAddsPlain(cfg: Config, w: World, op: Op, u: UserId)
    requires op.Login? && u !in w.st.db.users && u in AfterLogin(cfg, w, op).st.db.users
    ensures AfterLogin(cfg, w, op).st.db.users[u].role.User?
  {
  }

  lemma StepStaysPlain(cfg: Config, w: World, op: Op, u: UserId)
    requires Reachable(cfg, w) && Enabled(w, op) && !op.Bootstrap? && AllPlain(w)
    requires u in Apply(cfg, w, op).st.db.users
    ensures Apply(cfg, w, op).st.db.users[u].role.User?
  {
    if op.Login? && u !in w.st.db.users {
      LoginAddsPlain(cfg, w, op, u);
    } else {
      if !op.Login? { OnlyLoginAdds(cfg, w, op); }
      ChangesAreAuthorised(cfg, w, op, u);
    }
  }

  /** Until someone is bootstrapped, every account is a plain user. */
  lemma {:induction false} PrivilegeNeedsBootstrap(cfg: Config, w: World, ops: seq<Op>)
    requires Reachable(cfg, w) && AllPlain(w) && ValidRun(cfg, w, ops)
    requires forall i | 0 <= i < |ops| :: !ops[i].Bootstrap?
    ensures AllPlain(Run(cfg, w, ops))
    decreases |ops|
  {
    if ops != [] {
      var next := Apply(cfg, w, ops[0]);
      forall u | u in next.st.db.users ensures next.st.db.users[u].role.User? { StepStaysPlain(cfg, w, ops[0], u); }
      Reaches(cfg, w, ops[0]);
      PrivilegeNeedsBootstrap(cfg, next, ops[1..]);
    }
  }
}
