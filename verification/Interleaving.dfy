/** The same protocol at the granularity of its awaited calls: any number of validations,
    logins, refreshes, revoke-alls and role or status changes run at once, each a process that advances by
    one database statement, one Redis round trip, or one commit at a time, and any of them may
    abort between two steps. There is no clock here: whether something has expired is a free
    choice of the step, and session keys may disappear at any time. */
module Interleaving {
  import opened Domain

  type Pid = nat

  /** The committed authorization columns of a user. */
  datatype Row = Row(role: Role, status: Status, version: int)

  datatype Access = Access(sub: UserId, sid: SessionId, role: Role, av: int)

  datatype Refresh = Refresh(sub: UserId, jti: SessionId)

  /** A committed session row; renewed tells a session born by a refresh from one born by a login. */
  datatype Session = Session(owner: UserId, revoked: bool, renewed: bool)

  datatype Edit = SetRole(to: Role) | SetStatus(becomes: Status)

  function Edited(row: Row, edit: Edit): Row {
    match edit
    case SetRole(role) => Row(role, row.status, row.version + 1)
    case SetStatus(status) => Row(row.role, status, row.version + 1)
  }

  /** Stages of validate_access_token.py. */
  datatype Check = Presented | Missed | SawUser | SawSession | Announced | Accepted | Refused

  /** Stages of refresh_token.py. */
  datatype Stage =
    | Asked
    | Serialised
    | Held
    | Cleared
    | Renewing(role: Role, version: int)
    | Rotated
    | Retiring
    | Replaying
    | Scanned(ids: set<SessionId>)
    | Condemning(ids: set<SessionId>)

  /** How far a process has come. Finished processes keep their phase and ids are not reused. */
  datatype Phase =
    | Checking(t: Access, check: Check)
    | Opening(user: UserId, role: Role, version: int) // verify_email.py, with the user row it read
    | Refreshing(r: Refresh, stage: Stage)
    | Changing(user: UserId, row: Row, published: bool) // the five use cases that raise a version
    | Sweeping(user: UserId, ids: set<SessionId>, locked: bool) // revoke_all_tokens.py
    | Done
    | Failed

  /** rows and sessions are what is committed. advisory, rowLock and userLock are the database's
      locks with their holders; redis and keys the version keys and session keys. past, minted,
      tickets, births and rotatedBy record history and are read by no step of the code. */
  datatype Sys = Sys(
    rows: map<UserId, Row>,
    sessions: map<SessionId, Session>,
    redis: map<UserId, int>,
    keys: map<SessionId, UserId>,
    userLock: map<UserId, Pid>,
    rowLock: map<SessionId, Pid>,
    advisory: map<int, Pid>,
    procs: map<Pid, Phase>,
    past: map<(UserId, int), Row>,
    minted: set<Access>,
    tickets: set<Refresh>,
    births: map<SessionId, Access>,
    rotatedBy: map<SessionId, Pid>)

  const IDLE := Sys(map[], map[], map[], map[], map[], map[], map[], map[], map[], {}, {}, map[], map[])

  /** lock_user_refresh: the first eight bytes of the id, modulo 2^31. */
  function LockKey(u: UserId): int { (u / 0x1_0000_0000_0000_0000) % 0x8000_0000 }

  predicate Alive(s: Sys, sid: SessionId) { sid in s.sessions && !s.sessions[sid].revoked }

  function AliveOf(s: Sys, u: UserId): set<SessionId> {
    set sid | sid in s.sessions && s.sessions[sid].owner == u && !s.sessions[sid].revoked
  }

  predicate Final(phase: Phase) {
    || phase.Done? || phase.Failed?
    || (phase.Checking? && (phase.check.Accepted? || phase.check.Refused?))
    || (phase.Refreshing? && phase.stage.Rotated?)
  }

  predicate Checks(s: Sys, p: Pid, check: Check) {
    p in s.procs && s.procs[p].Checking? && s.procs[p].check == check
  }

  predicate InRefresh(s: Sys, p: Pid) { p in s.procs && s.procs[p].Refreshing? }

  predicate InChange(s: Sys, p: Pid, published: bool) {
    p in s.procs && s.procs[p].Changing? && s.procs[p].published == published
  }

  predicate InSweep(s: Sys, p: Pid, locked: bool) {
    p in s.procs && s.procs[p].Sweeping? && s.procs[p].locked == locked
  }

  /** Nobody holds the lock of a row in the set that is still to be revoked. */
  predicate Unlocked(s: Sys, ids: set<SessionId>) {
    forall sid | sid in ids && Alive(s, sid) :: sid !in s.rowLock
  }

  // ----- Steps -----

  datatype Step =
    | NewUser(u: UserId)
    | Present(p: Pid, token: Access)
    | Consult(p: Pid)
    | ReadUser(p: Pid)
    | ReadSession(p: Pid, expired: bool)
    | Announce(p: Pid)
    | Fill(p: Pid)
    | Open(p: Pid, u: UserId)
    | Mint(p: Pid, sid: SessionId)
    | Ask(p: Pid, ticket: Refresh)
    | Serialise(p: Pid)
    | Select(p: Pid, expired: bool)
    | DropKey(p: Pid)
    | ReadOwner(p: Pid)
    | Rotate(p: Pid, sid: SessionId)
    | Retire(p: Pid)
    | Scan(p: Pid)
    | RevokeAll(p: Pid)
    | CommitReplay(p: Pid)
    | Update(p: Pid, u: UserId, edit: Edit)
    | Insert(p: Pid, u: UserId)
    | Publish(p: Pid)
    | CommitChange(p: Pid)
    | Sweep(p: Pid, u: UserId)
    | Seize(p: Pid)
    | CommitSweep(p: Pid)
    | Abort(p: Pid)
    | LoseKey(sid: SessionId)
    | RevokeRow(sid: SessionId)

  predicate Enabled(s: Sys, step: Step) {
    match step
    case NewUser(u) => u !in s.rows && u !in s.redis && u !in s.userLock
    case Present(p, t) => p !in s.procs && t in s.minted
    case Consult(p) => Checks(s, p, Presented)
    case ReadUser(p) => Checks(s, p, Missed)
    case ReadSession(p, _) => Checks(s, p, SawUser)
    case Announce(p) => Checks(s, p, SawSession)
    case Fill(p) => Checks(s, p, Announced)
    case Open(p, u) => p !in s.procs && u in s.rows
    case Mint(p, sid) => p in s.procs && s.procs[p].Opening? && sid !in s.sessions
    case Ask(p, r) => p !in s.procs && r in s.tickets
    case Serialise(p) => InRefresh(s, p) && s.procs[p].stage.Asked? && LockKey(s.procs[p].r.sub) !in s.advisory
    case Select(p, _) => InRefresh(s, p) && s.procs[p].stage.Serialised?
        && (Alive(s, s.procs[p].r.jti) ==> s.procs[p].r.jti !in s.rowLock)
    case DropKey(p) => InRefresh(s, p) && s.procs[p].stage.Held?
    case ReadOwner(p) => InRefresh(s, p) && s.procs[p].stage.Cleared?
    case Rotate(p, sid) => InRefresh(s, p) && s.procs[p].stage.Renewing? && sid !in s.sessions
    case Retire(p) => InRefresh(s, p) && s.procs[p].stage.Retiring?
    case Scan(p) => InRefresh(s, p) && s.procs[p].stage.Replaying?
    case RevokeAll(p) => InRefresh(s, p) && s.procs[p].stage.Scanned? && Unlocked(s, s.procs[p].stage.ids)
    case CommitReplay(p) => InRefresh(s, p) && s.procs[p].stage.Condemning?
    case Update(p, u, _) => p !in s.procs && u in s.rows && u !in s.userLock
    case Insert(p, u) => p !in s.procs && u !in s.rows && u !in s.redis && u !in s.userLock
    case Publish(p) => InChange(s, p, false)
    case CommitChange(p) => InChange(s, p, true)
    case Sweep(p, u) => p !in s.procs
    case Seize(p) => InSweep(s, p, false) && Unlocked(s, s.procs[p].ids)
    case CommitSweep(p) => InSweep(s, p, true)
    case Abort(p) => p in s.procs && !Final(s.procs[p])
    case LoseKey(_) => true
    case RevokeRow(sid) => sid in s.sessions && sid !in s.rowLock
  }

  function Moved(s: Sys, p: Pid, phase: Phase): Sys { s.(procs := s.procs[p := phase]) }

  function Without<K>(locks: map<K, Pid>, p: Pid): map<K, Pid> {
    map k | k in locks && locks[k] != p :: locks[k]
  }

  /** A transaction ends and its locks go. */
  function Ended(s: Sys, p: Pid, phase: Phase): Sys {
    s.(procs := s.procs[p := phase],
       userLock := Without(s.userLock, p), rowLock := Without(s.rowLock, p), advisory := Without(s.advisory, p))
  }

  /** The set-if-greater script. */
  function Raised(s: Sys, u: UserId, version: int): Sys {
    s.(redis := s.redis[u := if u in s.redis then Max(version, s.redis[u]) else version])
  }

  function Committed(s: Sys, u: UserId, row: Row): Sys {
    s.(rows := s.rows[u := row], past := s.past[(u, row.version) := row])
  }

  /** A session commits together with the one access token and the one refresh token made for it. */
  function Born(s: Sys, sid: SessionId, u: UserId, role: Role, version: int, renewed: bool): Sys {
    var t := Access(u, sid, role, version);
    s.(sessions := s.sessions[sid := Session(u, false, renewed)],
       minted := s.minted + {t}, tickets := s.tickets + {Refresh(u, sid)}, births := s.births[sid := t])
  }

  function Buried(s: Sys, ids: set<SessionId>): Sys {
    s.(sessions := map sid | sid in s.sessions ::
         if sid in ids then s.sessions[sid].(revoked := true) else s.sessions[sid])
  }

  /** The Redis-only answer, or the slow path. */
  function Consulted(s: Sys, t: Access): Check {
    if t.sub in s.redis && s.redis[t.sub] != t.av then Refused
    else if t.sid in s.keys && s.keys[t.sid] != t.sub then Refused
    else if t.sub in s.redis && t.sid in s.keys then Accepted
    else Missed
  }

  /** The committed row carries exactly the token's role and version, and is active. */
  predicate Current(s: Sys, t: Access) {
    t.sub in s.rows && s.rows[t.sub] == Row(t.role, Status.Active, t.av)
  }

  predicate Validates(step: Step) {
    step.Present? || step.Consult? || step.ReadUser? || step.ReadSession? || step.Announce? || step.Fill?
  }

  predicate Refreshes(step: Step) {
    step.Ask? || step.Serialise? || step.Select? || step.DropKey? || step.ReadOwner? || step.Rotate?
    || step.Retire? || step.Scan? || step.RevokeAll? || step.CommitReplay?
  }

  predicate Sweeps(step: Step) { step.Sweep? || step.Seize? || step.CommitSweep? }

  predicate Changes(step: Step) {
    step.NewUser? || step.Update? || step.Insert? || step.Publish? || step.CommitChange?
  }

  /** validate_access_token.py: one Redis read, two database reads, then the cache fill. */
  function ExecValidate(s: Sys, step: Step): Sys
    requires Validates(step) && Enabled(s, step)
  {
    match step
    case Present(p, t) => Moved(s, p, Checking(t, Presented))
    case Consult(p) => Moved(s, p, Checking(s.procs[p].t, Consulted(s, s.procs[p].t)))
    case ReadUser(p) =>
      var t := s.procs[p].t;
      Moved(s, p, Checking(t, if Current(s, t) then SawUser else Refused))
    case ReadSession(p, expired) =>
      var t := s.procs[p].t;
      var ok := Alive(s, t.sid) && !expired && s.sessions[t.sid].owner == t.sub;
      Moved(s, p, Checking(t, if ok then SawSession else Refused))
    case Announce(p) =>
      var t := s.procs[p].t;
      Moved(Raised(s, t.sub, t.av), p, Checking(t, Announced))
    case Fill(p) =>
      var t := s.procs[p].t;
      Moved(s.(keys := s.keys[t.sid := t.sub]), p, Checking(t, Accepted))
  }

  function Selected(s: Sys, p: Pid, r: Refresh, expired: bool): Sys {
    if Alive(s, r.jti) && s.sessions[r.jti].owner == r.sub
    then Moved(s.(rowLock := s.rowLock[r.jti := p]), p, Refreshing(r, if expired then Retiring else Held))
    else if expired && !Alive(s, r.jti) then Ended(s, p, Failed)
    else Moved(s, p, Refreshing(r, Replaying))
  }

  function Owned(s: Sys, p: Pid, r: Refresh): Sys {
    if r.sub in s.rows && s.rows[r.sub].status == Status.Active
    then Moved(s, p, Refreshing(r, Renewing(s.rows[r.sub].role, s.rows[r.sub].version)))
    else Ended(s, p, Failed)
  }

  function Renewed(s: Sys, p: Pid, r: Refresh, role: Role, version: int, sid: SessionId): Sys {
    var s1 := Born(Buried(s, {r.jti}), sid, r.sub, role, version, true);
    Ended(s1.(rotatedBy := s.rotatedBy[r.jti := p]), p, Refreshing(r, Rotated))
  }

  /** An UPDATE over a set of rows it found when the statement began: it waits until none of them is
      locked, skips those revoked meanwhile, and locks the rest. Rows committed since are not seen. */
  function StillAlive(s: Sys, ids: set<SessionId>): set<SessionId> { set sid | sid in ids && Alive(s, sid) }

  function Locked(s: Sys, p: Pid, ids: set<SessionId>): Sys {
    s.(rowLock := s.rowLock + map sid | sid in ids :: p)
  }

  function Condemned(s: Sys, p: Pid, r: Refresh, ids: set<SessionId>): Sys {
    Moved(Locked(s, p, StillAlive(s, ids)), p, Refreshing(r, Condemning(StillAlive(s, ids))))
  }

  /** refresh_token.py: advisory lock, row lock, key, user, commit; or the replay branch. */
  function ExecRefresh(s: Sys, step: Step): Sys
    requires Refreshes(step) && Enabled(s, step)
  {
    match step
    case Ask(p, r) => Moved(s, p, Refreshing(r, Asked))
    case Serialise(p) =>
      var r := s.procs[p].r;
      Moved(s.(advisory := s.advisory[LockKey(r.sub) := p]), p, Refreshing(r, Serialised))
    case Select(p, expired) => Selected(s, p, s.procs[p].r, expired)
    case DropKey(p) =>
      var r := s.procs[p].r;
      Moved(s.(keys := s.keys - {r.jti}), p, Refreshing(r, Cleared))
    case ReadOwner(p) => Owned(s, p, s.procs[p].r)
    case Rotate(p, sid) => Renewed(s, p, s.procs[p].r, s.procs[p].stage.role, s.procs[p].stage.version, sid)
    case Retire(p) => Ended(Buried(s, {s.procs[p].r.jti}), p, Done)
    case Scan(p) => Moved(s, p, Refreshing(s.procs[p].r, Scanned(AliveOf(s, s.procs[p].r.sub))))
    case RevokeAll(p) => Condemned(s, p, s.procs[p].r, s.procs[p].stage.ids)
    case CommitReplay(p) => Ended(Buried(s, s.procs[p].stage.ids), p, Done)
  }

  /** The use cases that raise a version: update under the row lock, publish, commit. */
  function ExecChange(s: Sys, step: Step): Sys
    requires Changes(step) && Enabled(s, step)
  {
    match step
    case NewUser(u) => Committed(s, u, Row(Role.User, Status.Active, 1))
    case Update(p, u, edit) => Moved(s.(userLock := s.userLock[u := p]), p, Changing(u, Edited(s.rows[u], edit), false))
    case Insert(p, u) => Moved(s.(userLock := s.userLock[u := p]), p,
        Changing(u, Row(Role.SuperAdmin, Status.Active, 2), false))
    case Publish(p) => Moved(Raised(s, s.procs[p].user, s.procs[p].row.version), p, s.procs[p].(published := true))
    case CommitChange(p) => Ended(Committed(s, s.procs[p].user, s.procs[p].row), p, Done)
  }

  /** revoke_all_tokens.py: the statement begins, gets its row locks, and the transaction commits. It
      takes no advisory lock. */
  function ExecSweep(s: Sys, step: Step): Sys
    requires Sweeps(step) && Enabled(s, step)
  {
    match step
    case Sweep(p, u) => Moved(s, p, Sweeping(u, AliveOf(s, u), false))
    case Seize(p) =>
      var ids := StillAlive(s, s.procs[p].ids);
      Moved(Locked(s, p, ids), p, Sweeping(s.procs[p].user, ids, true))
    case CommitSweep(p) => Ended(Buried(s, s.procs[p].ids), p, Done)
  }

  /** Logins, aborts, and what happens around the processes. */
  function ExecOther(s: Sys, step: Step): Sys
    requires !Validates(step) && !Refreshes(step) && !Changes(step) && !Sweeps(step) && Enabled(s, step)
  {
    match step
    case Open(p, u) => Moved(s, p, Opening(u, s.rows[u].role, s.rows[u].version))
    case Mint(p, sid) => Ended(Born(s, sid, s.procs[p].user, s.procs[p].role, s.procs[p].version, false), p, Done)
    case Abort(p) => Ended(s, p, Failed)
    case LoseKey(sid) => s.(keys := s.keys - {sid})
    case RevokeRow(sid) => Buried(s, {sid})
  }

  function Exec(s: Sys, step: Step): Sys
    requires Enabled(s, step)
  {
    if Validates(step) then ExecValidate(s, step)
    else if Refreshes(step) then ExecRefresh(s, step)
    else if Changes(step) then ExecChange(s, step)
    else if Sweeps(step) then ExecSweep(s, step)
    else ExecOther(s, step)
  }

  /** A step that is not enabled waits. */
  function Next(s: Sys, step: Step): Sys { if Enabled(s, step) then Exec(s, step) else s }

  /** The state after a schedule. Every sequence of steps is a schedule. */
  function Run(s: Sys, steps: seq<Step>): Sys
    decreases |steps|
  {
    if steps == [] then s else Next(Run(s, steps[..|steps| - 1]), steps[|steps| - 1])
  }

  function StateAfter(steps: seq<Step>): Sys { Run(IDLE, steps) }
}
