/** What every run keeps of the user table: addresses are for good, versions never fall, and each
    login request belongs to the account its code was mailed to. */
module Accounts {
  import opened Domain
  import opened Tables
  import opened LoginStore
  import opened Authentication
  import opened Administration
  import opened Service
  import opened Authority
  import opened OneTimeCodes

  /** No account goes away, changes its address or falls back to an earlier version, and the index on
      addresses only grows. */
  ghost predicate AccountsKept(before: Db, after: Db) {
    && (forall u | u in before.users ::
          u in after.users && after.users[u].email == before.users[u].email
          && after.users[u].version >= before.users[u].version)
    && (forall e | e in before.emails :: e in after.emails && after.emails[e] == before.emails[e])
  }

  /** The index on addresses leads to the account with the address. */
  ghost predicate EmailsOk(db: Db) {
    forall e | e in db.emails :: db.emails[e] in db.users && db.users[db.emails[e]].email == e
  }

  /** A stored request is for the account its code was mailed to. */
  ghost predicate AddressOk(db: Db, logins: Logins, trails: map<RequestId, Trail>, id: RequestId) {
    id in logins.requests ==>
      && id in trails && logins.requests[id].request.user in db.users
      && db.users[logins.requests[id].request.user].email == trails[id].mail.to
  }

  ghost predicate AddressesOk(w: World) {
    EmailsOk(w.st.db) && forall id :: AddressOk(w.st.db, w.st.logins, w.hist.trails, id)
  }

  // ----- rows -----

  lemma RoleKeepsAccounts(st: Stores, u: UserId, role: Role)
    ensures var after := RoleSet(st, u, role).db; AccountsKept(st.db, after) && after.emails == st.db.emails
  {
  }

  lemma StatusKeepsAccounts(st: Stores, u: UserId, status: Status)
    ensures var after := StatusSet(st, u, status).db; AccountsKept(st.db, after) && after.emails == st.db.emails
  {
  }

  lemma NewAccountKept(db: Db, email: string, newUser: UserId)
    requires newUser !in db.users
    ensures AccountsKept(db, WithUser(db, email, newUser))
    ensures EmailsOk(db) ==> EmailsOk(WithUser(db, email, newUser))
  {
  }

  lemma RevocationKeepsAccounts(st: Stores, now: Instant, p: Principal, op: Op)
    requires !op.ChangeRole? && !op.ChangeStatus? && !op.ApproveDeletion? && !op.RequestDeletion?
    ensures var after := Use(st, now, p, op).stores.db; AccountsKept(st.db, after) && after.emails == st.db.emails
  {
  }

  lemma ApprovalKeepsAccounts(st: Stores, now: Instant, actor: Role, u: UserId)
    ensures var after := ApproveDeletionOutcome(st, now, actor, u).stores.db;
            AccountsKept(st.db, after) && after.emails == st.db.emails
  {
    StatusKeepsAccounts(st, u, Deleted);
  }

  lemma UseKeepsAccounts(st: Stores, now: Instant, p: Principal, op: Op)
    ensures var after := Use(st, now, p, op).stores.db; AccountsKept(st.db, after) && after.emails == st.db.emails
  {
    match op
    case ChangeRole(_, u, role) => RoleKeepsAccounts(st, u, role);
    case ChangeStatus(_, u, status) => StatusKeepsAccounts(st, u, status);
    case ApproveDeletion(_, u) => ApprovalKeepsAccounts(st, now, p.role, u);
    case RequestDeletion(_) => StatusKeepsAccounts(st, p.user, DeletionRequested);
    case _ => RevocationKeepsAccounts(st, now, p, op);
  }

  lemma RequestKeepsAccounts(w: World, op: Op)
    requires Authenticated(op)
    ensures var after := Request(w, op).stores.db; AccountsKept(w.st.db, after) && after.emails == w.st.db.emails
  {
    var p, v := Admit(w, op.token, AllowedFor(op)), Validated(w, op.token);
    if p.Ok? { UseKeepsAccounts(v.st, w.now, p.value, op); }
  }

  lemma RotationLeavesEmails(cfg: Config, st: Stores, now: Instant, signed: Instant, c: RefreshClaims, sid: SessionId)
    ensures RefreshClaimsOutcome(cfg, st, now, signed, c, sid).stores.db.emails == st.db.emails
  {
  }

  lemma RefreshKeepsAccounts(cfg: Config, w: World, op: Op)
    requires op.Refresh?
    ensures var after := AfterRefresh(cfg, w, op).st.db; AccountsKept(w.st.db, after) && after.emails == w.st.db.emails
  {
    RefreshLeavesUsers(cfg, w, op);
    if op.token.RefreshToken? { RotationLeavesEmails(cfg, w.st, w.now, op.signed, op.token.refresh, op.newSid); }
  }

  lemma VerifyKeepsAccounts(cfg: Config, w: World, op: Op)
    requires op.Verify?
    ensures var after := AfterVerify(cfg, w, op).st.db; AccountsKept(w.st.db, after) && after.emails == w.st.db.emails
  {
  }

  lemma LoginKeepsAccounts(cfg: Config, w: World, op: Op)
    requires op.Login? && Enabled(w, op)
    ensures var after := AfterLogin(cfg, w, op).st.db;
            AccountsKept(w.st.db, after) && (EmailsOk(w.st.db) ==> EmailsOk(after))
  {
    NewAccountKept(w.st.db, op.email, op.newUser);
  }

  lemma KeptThrough(a: Db, b: Db, c: Db)
    requires AccountsKept(a, b) && AccountsKept(b, c)
    ensures AccountsKept(a, c)
  {
  }

  lemma BootstrapKeepsAccounts(st: Stores, email: string, newUser: UserId)
    requires newUser !in st.db.users
    ensures var after := BootstrapStores(st, email, newUser).db;
            AccountsKept(st.db, after) && (EmailsOk(st.db) ==> EmailsOk(after))
  {
    NewAccountKept(st.db, email, newUser);
    var db, u := WithUser(st.db, email, newUser), UserFor(st.db, email, newUser);
    RoleKeepsAccounts(st.(db := db), u, SuperAdmin);
    KeptThrough(st.db, db, RoleSet(st.(db := db), u, SuperAdmin).db);
  }

  lemma StepKeepsAccounts(cfg: Config, w: World, op: Op)
    requires Enabled(w, op)
    ensures var after := Apply(cfg, w, op).st.db;
            AccountsKept(w.st.db, after) && (EmailsOk(w.st.db) ==> EmailsOk(after))
  {
    match op
    case Tick(_) =>
    case LoseKey(_) =>
    case Login(_, _, _, _, _, _, _) => LoginKeepsAccounts(cfg, w, op);
    case Verify(_, _, _, _, _, _) => VerifyKeepsAccounts(cfg, w, op);
    case Refresh(_, _, _, _) => RefreshKeepsAccounts(cfg, w, op);
    case Bootstrap(email, u) => BootstrapKeepsAccounts(w.st, email, u);
    case _ => RequestKeepsAccounts(w, op);
  }

  // ----- requests -----

  lemma LoginKeepsAddress(cfg: Config, w: World, op: Op, id: RequestId)
    requires op.Login? && Enabled(w, op) && AddressesOk(w)
    ensures var next := AfterLogin(cfg, w, op); AddressOk(next.st.db, next.st.logins, next.hist.trails, id)
  {
    assert AddressOk(w.st.db, w.st.logins, w.hist.trails, id);
    LoginKeepsAccounts(cfg, w, op);
  }

  lemma VerifyKeepsAddress(cfg: Config, w: World, op: Op, id: RequestId)
    requires op.Verify? && AddressOk(w.st.db, w.st.logins, w.hist.trails, id)
    ensures var next := AfterVerify(cfg, w, op); AddressOk(next.st.db, next.st.logins, next.hist.trails, id)
  {
    VerifyKeepsAccounts(cfg, w, op);
  }

  lemma StepKeepsAddresses(cfg: Config, w: World, op: Op)
    requires Enabled(w, op) && AddressesOk(w)
    ensures AddressesOk(Apply(cfg, w, op))
  {
    var next := Apply(cfg, w, op);
    StepKeepsAccounts(cfg, w, op);
    if !op.Login? && !op.Verify? { OthersLeaveLogins(cfg, w, op); }
    forall id ensures AddressOk(next.st.db, next.st.logins, next.hist.trails, id) {
      assert AddressOk(w.st.db, w.st.logins, w.hist.trails, id);
      if op.Login? {
        LoginKeepsAddress(cfg, w, op, id);
      } else if op.Verify? {
        VerifyKeepsAddress(cfg, w, op, id);
      }
    }
  }

  lemma {:induction false} RunKeepsAccounts(cfg: Config, w: World, ops: seq<Op>)
    requires ValidRun(cfg, w, ops)
    ensures AccountsKept(w.st.db, Run(cfg, w, ops).st.db)
    ensures AddressesOk(w) ==> AddressesOk(Run(cfg, w, ops))
    decreases |ops|
  {
    if ops != [] {
      StepKeepsAccounts(cfg, w, ops[0]);
      if AddressesOk(w) { StepKeepsAddresses(cfg, w, ops[0]); }
      RunKeepsAccounts(cfg, Apply(cfg, w, ops[0]), ops[1..]);
      KeptThrough(w.st.db, Apply(cfg, w, ops[0]).st.db, Run(cfg, w, ops).st.db);
    }
  }

  lemma ReachableAddresses(cfg: Config, w: World)
    requires Reachable(cfg, w)
    ensures AddressesOk(w)
  {
    var ops :| ValidRun(cfg, START, ops) && Run(cfg, START, ops) == w;
    RunKeepsAccounts(cfg, START, ops);
  }
}
