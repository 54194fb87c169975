/** The whole service as a state machine: every use case is one atomic, fault-free step, and
    between steps time passes and Redis may lose session keys. */
module Service {
  import opened Domain
  import opened AccessStore
  import opened Tables
  import opened LoginStore
  import opened Authentication
  import opened Administration

  /** What became of a login request: the mail its code went out in, the key's original deadline
      and the code's expiry, how many codes presented for it were wrong and right, and the session
      it led to. */
  datatype Trail = Trail(
    mail: Mail,
    deadline: Instant,
    expiresAt: Instant,
    wrong: nat,
    right: nat,
    session: Option<SessionId>)

  /** How sessions came about: the session each rotated session replaced and the one that
      replaced it, the login request behind each login session, the newest session of a device,
      and the order in which sessions were created. */
  datatype Descent = Descent(
    parent: map<SessionId, SessionId>,
    successor: map<SessionId, SessionId>,
    source: map<SessionId, RequestId>,
    newest: map<DeviceId, SessionId>,
    rank: map<SessionId, nat>,
    count: nat)

  /** What the stores do not keep: tokens signed, the descent of sessions, and the trail of
      every login request. */
  datatype History = History(issued: Issued, descent: Descent, trails: map<RequestId, Trail>)

  datatype World = World(now: Instant, st: Stores, hist: History)

  const START := World(0, Stores(EMPTY_DB, EMPTY_CACHE, EMPTY_LOGINS),
                       History(Issued({}, {}), Descent(map[], map[], map[], map[], map[], 0), map[]))

  datatype Op =
    | Tick(elapsed: nat)
    | LoseKey(lost: SessionId)
    | Login(email: string, client: string, newUser: UserId, newDevice: DeviceId, newRequest: RequestId,
            generated: string, delivered: bool)
    | Verify(email: string, code: string, request: RequestId, newSid: SessionId, ttl: int, signed: Instant)
    | Refresh(token: Token, newSid: SessionId, seen: Instant, signed: Instant)
    | Validate(token: Token)
    | Logout(token: Token)
    | RevokeSession(token: Token, sid: SessionId)
    | RevokeAll(token: Token)
    | ChangeRole(token: Token, target: UserId, role: Role)
    | ChangeStatus(token: Token, target: UserId, status: Status)
    | ApproveDeletion(token: Token, target: UserId)
    | RequestDeletion(token: Token)
    | Bootstrap(email: string, newUser: UserId)

  /** Identifiers handed out are new, TTL readings are honest, a refresh token is decoded no later
      and a new one signed no earlier than the use case reads the clock. */
  ghost predicate Enabled(w: World, op: Op) {
    match op
    case Login(_, _, u, d, id, _, _) =>
      u !in w.st.db.users && d !in w.st.db.devices && id !in w.hist.trails
    case Verify(_, _, id, sid, ttl, signed) =>
      && w.now <= signed
      && sid !in w.st.db.sessions
      && (Live(w.st.logins, w.now, id) ==> TtlReading(w.st.logins.requests[id].deadline, w.now, ttl))
    case Refresh(_, sid, seen, signed) => seen <= w.now <= signed && sid !in w.st.db.sessions
    case Bootstrap(_, u) => u !in w.st.db.users
    case _ => true
  }

  function Answer(w: World, token: Token): Result<Principal> {
    ValidateAnswer(w.st.db, w.st.cache, w.hist.issued, w.now, token)
  }

  /** The state validate leaves. */
  function Validated(w: World, token: Token): World {
    w.(st := w.st.(cache := ValidateCache(w.st.db, w.st.cache, w.hist.issued, w.now, token)))
  }

  /** require_roles(*allowed) over validate. */
  function Admit(w: World, token: Token, allowed: set<Role>): Result<Principal> {
    var p := Answer(w, token);
    if p.Ok? && p.value.role !in allowed then Err(Forbidden) else p
  }

  const ANYONE := {SuperAdmin, Admin, User}
  const ADMINS := {SuperAdmin, Admin}
  const SUPER_ADMINS := {SuperAdmin}

  function Recorded(issued: Issued, pair: TokenPair): Issued {
    Issued(issued.access + {pair.access}, issued.refresh + {pair.refresh})
  }

  function ByLogin(descent: Descent, sid: SessionId, d: DeviceId, id: RequestId): Descent {
    descent.(source := descent.source[sid := id], newest := descent.newest[d := sid],
             rank := descent.rank[sid := descent.count], count := descent.count + 1)
  }

  function ByRotation(descent: Descent, sid: SessionId, d: DeviceId, old_: SessionId): Descent {
    descent.(parent := descent.parent[sid := old_], successor := descent.successor[old_ := sid],
             newest := descent.newest[d := sid], rank := descent.rank[sid := descent.count], count := descent.count + 1)
  }

  function AfterLogin(cfg: Config, w: World, op: Op): World
    requires op.Login?
  {
    var o := LoginOutcome(cfg, w.st, w.now, op.email, op.client, op.newUser, op.newDevice, op.newRequest,
                          op.generated, op.delivered);
    var expiresAt := w.now + cfg.otpSeconds * SECOND;
    var mail := Mail(op.email, CodeFor(cfg, op.generated));
    var trail := Trail(mail, w.now + CreationTtl(expiresAt, w.now) * SECOND, expiresAt, 0, 0, None);
    w.(st := o.stores, hist := w.hist.(trails := w.hist.trails[op.newRequest := trail]))
  }

  /** The code that was mailed, or the configured dev code. */
  predicate IsRight(cfg: Config, t: Trail, code: string) { code == t.mail.code || cfg.devOtp == Some(code) }

  /** The trail a verify leaves: one more comparison, if it got as far as comparing. Whether the code
      was right is judged by the mail that went out. */
  function Compared(cfg: Config, w: World, op: Op): map<RequestId, Trail>
    requires op.Verify?
  {
    var trails := w.hist.trails;
    if VerifyGuard(w.st.db, w.st.logins, w.now, op.email, op.request).Some? || op.request !in trails then trails
    else
      var t := trails[op.request];
      trails[op.request := if IsRight(cfg, t, op.code)
                           then t.(right := t.right + 1, session := Some(op.newSid))
                           else t.(wrong := t.wrong + 1)]
  }

  function AfterVerify(cfg: Config, w: World, op: Op): World
    requires op.Verify?
  {
    var o := VerifyOutcome(cfg, w.st, w.now, op.signed, op.email, op.code, op.request, op.newSid, op.ttl);
    var hist := w.hist.(trails := Compared(cfg, w, op));
    if o.result.Err? then w.(st := o.stores, hist := hist)
    else
      var d := o.stores.db.sessions[op.newSid].device;
      w.(st := o.stores, hist := hist.(issued := Recorded(hist.issued, o.result.value),
                                       descent := ByLogin(hist.descent, op.newSid, d, op.request)))
  }

  function AfterRefresh(cfg: Config, w: World, op: Op): World
    requires op.Refresh?
  {
    var o := RefreshOutcome(cfg, w.st, w.hist.issued, op.seen, w.now, op.signed, op.token, op.newSid);
    if o.result.Err? || op.token.AccessToken? then w.(st := o.stores)
    else
      var d := o.stores.db.sessions[op.newSid].device;
      w.(st := o.stores, hist := w.hist.(issued := Recorded(w.hist.issued, o.result.value),
                                         descent := ByRotation(w.hist.descent, op.newSid, d, op.token.refresh.jti)))
  }

  /** Requests that carry an access token. */
  predicate Authenticated(op: Op) {
    op.Validate? || op.Logout? || op.RevokeSession? || op.RevokeAll? || op.ChangeRole? || op.ChangeStatus?
    || op.ApproveDeletion? || op.RequestDeletion?
  }

  /** The roles the route admits. */
  function AllowedFor(op: Op): set<Role> {
    if op.ChangeRole? then SUPER_ADMINS
    else if op.ChangeStatus? || op.ApproveDeletion? then ADMINS
    else ANYONE
  }

  /** What the use case behind the route does and answers for a principal. */
  function Use(st: Stores, now: Instant, p: Principal, op: Op): Outcome<()> {
    match op
    case Logout(_) => LogoutOutcome(st, now, p.user, p.session)
    case RevokeSession(_, sid) => RevokeOutcome(st, now, p.user, sid)
    case RevokeAll(_) => RevokeAllOutcome(st, now, p.user)
    case ChangeRole(_, u, role) => ChangeRoleOutcome(st, p.role, u, role)
    case ChangeStatus(_, u, status) => ChangeStatusOutcome(st, p.role, u, status)
    case ApproveDeletion(_, u) => ApproveDeletionOutcome(st, now, p.role, u)
    case RequestDeletion(_) => RequestDeletionOutcome(st, p.user)
    case _ => Outcome(st, Ok(()))
  }

  /** Only a request that got past validate and require_roles runs its use case, on the state
      validate left. */
  function Request(w: World, op: Op): Outcome<()>
    requires Authenticated(op)
  {
    var p := Admit(w, op.token, AllowedFor(op));
    var st := Validated(w, op.token).st;
    if p.Err? then Outcome(st, Err(p.error)) else Use(st, w.now, p.value, op)
  }

  function Apply(cfg: Config, w: World, op: Op): World {
    match op
    case Tick(elapsed) => w.(now := w.now + elapsed)
    case LoseKey(sid) => w.(st := w.st.(cache := w.st.cache.(keys := w.st.cache.keys - {sid})))
    case Login(_, _, _, _, _, _, _) => AfterLogin(cfg, w, op)
    case Verify(_, _, _, _, _, _) => AfterVerify(cfg, w, op)
    case Refresh(_, _, _, _) => AfterRefresh(cfg, w, op)
    case Bootstrap(email, u) => w.(st := BootstrapStores(w.st, email, u))
    case _ => w.(st := Request(w, op).stores)
  }

  function Run(cfg: Config, w: World, ops: seq<Op>): World
    decreases |ops|
  {
    if ops == [] then w else Run(cfg, Apply(cfg, w, ops[0]), ops[1..])
  }

  ghost predicate ValidRun(cfg: Config, w: World, ops: seq<Op>)
    decreases |ops|
  {
    ops == [] || (Enabled(w, ops[0]) && ValidRun(cfg, Apply(cfg, w, ops[0]), ops[1..]))
  }

  ghost predicate Reachable(cfg: Config, w: World) {
    exists ops :: ValidRun(cfg, START, ops) && Run(cfg, START, ops) == w
  }
}
