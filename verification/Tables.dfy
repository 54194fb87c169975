/** The PostgreSQL tables, the SQL statements of the two repositories, and the unit of work.
    app/modules/auth/infrastructure/sqlalchemy_repositories.py and
    app/modules/users/infrastructure/sqlalchemy_repositories.py */
module Tables {
  import opened Domain

  datatype UserRow = UserRow(email: string, role: Role, status: Status, version: int, verified: bool)

  datatype SessionRow = SessionRow(
    owner: UserId,
    device: DeviceId,
    digest: Digest,
    expiresAt: Instant,
    revokedAt: Option<Instant>)

  /** emails and clients are the unique indexes on users(email) and
      user_devices(user_id, client_device_id). */
  datatype Db = Db(
    users: map<UserId, UserRow>,
    emails: map<string, UserId>,
    devices: map<DeviceId, UserId>,
    clients: map<(UserId, string), DeviceId>,
    sessions: map<SessionId, SessionRow>)

  const EMPTY_DB := Db(map[], map[], map[], map[], map[])

  function NewUser(email: string): UserRow { UserRow(email, User, Active, 1, false) }

  function FindUser(db: Db, u: UserId): Option<UserRow> {
    if u in db.users then Some(db.users[u]) else None
  }

  function FindSession(db: Db, sid: SessionId): Option<SessionRow> {
    if sid in db.sessions then Some(db.sessions[sid]) else None
  }

  /** SELECT ... WHERE revoked_at IS NULL FOR UPDATE: a revoked session is not found. */
  function FindForUpdate(db: Db, sid: SessionId): Option<SessionRow> {
    if sid in db.sessions && db.sessions[sid].revokedAt.None? then Some(db.sessions[sid]) else None
  }

  /** The guard revoked_at IS NULL, common to the four revoking statements. */
  function Revoked(row: SessionRow, at: Instant): SessionRow {
    if row.revokedAt.None? then row.(revokedAt := Some(at)) else row
  }

  function RevokedById(db: Db, sid: SessionId, at: Instant): Db {
    if sid in db.sessions then db.(sessions := db.sessions[sid := Revoked(db.sessions[sid], at)]) else db
  }

  predicate OwnedAndActive(db: Db, sid: SessionId, u: UserId) {
    sid in db.sessions && db.sessions[sid].owner == u && db.sessions[sid].revokedAt.None?
  }

  function RevokedOwned(db: Db, sid: SessionId, u: UserId, at: Instant): Db {
    if OwnedAndActive(db, sid, u) then RevokedById(db, sid, at) else db
  }

  function RevokedForDevice(db: Db, u: UserId, d: DeviceId, at: Instant): Db {
    db.(sessions := map s | s in db.sessions ::
          var row := db.sessions[s];
          if row.owner == u && row.device == d then Revoked(row, at) else row)
  }

  function RevokedForUser(db: Db, u: UserId, at: Instant): Db {
    db.(sessions := map s | s in db.sessions ::
          var row := db.sessions[s];
          if row.owner == u then Revoked(row, at) else row)
  }

  function WithSession(db: Db, sid: SessionId, row: SessionRow): Db {
    db.(sessions := db.sessions[sid := row])
  }

  function WithVerified(db: Db, u: UserId): Db {
    if u in db.users then db.(users := db.users[u := db.users[u].(verified := true)]) else db
  }

  function WithRole(db: Db, u: UserId, role: Role): Db {
    if u in db.users
    then db.(users := db.users[u := db.users[u].(role := role, version := db.users[u].version + 1)])
    else db
  }

  function WithStatus(db: Db, u: UserId, status: Status): Db {
    if u in db.users
    then db.(users := db.users[u := db.users[u].(status := status, version := db.users[u].version + 1)])
    else db
  }

  /** get_or_create; newId is the identifier a new row would get. */
  function WithUser(db: Db, email: string, newId: UserId): Db {
    if email in db.emails then db
    else db.(users := db.users[newId := NewUser(email)], emails := db.emails[email := newId])
  }

  function UserFor(db: Db, email: string, newId: UserId): UserId {
    if email in db.emails then db.emails[email] else newId
  }

  /** INSERT ... ON CONFLICT (user_id, client_device_id) DO UPDATE. */
  function WithDevice(db: Db, u: UserId, client: string, newId: DeviceId): Db {
    if (u, client) in db.clients then db
    else db.(devices := db.devices[newId := u], clients := db.clients[(u, client) := newId])
  }

  function DeviceFor(db: Db, u: UserId, client: string, newId: DeviceId): DeviceId {
    if (u, client) in db.clients then db.clients[(u, client)] else newId
  }

  /** All that ever changes in a session row is that revoked_at is set, once. */
  ghost predicate RowEvolves(before: SessionRow, after: SessionRow) {
    && after.owner == before.owner && after.device == before.device
    && after.digest == before.digest && after.expiresAt == before.expiresAt
    && (before.revokedAt.Some? ==> after.revokedAt == before.revokedAt)
  }

  /** Session rows never disappear. */
  ghost predicate Evolves(before: map<SessionId, SessionRow>, after: map<SessionId, SessionRow>) {
    forall s | s in before :: s in after && RowEvolves(before[s], after[s])
  }

  /** Revoking sessions, and nothing else. */
  ghost predicate OnlyRevokes(before: map<SessionId, SessionRow>, after: map<SessionId, SessionRow>) {
    before.Keys == after.Keys && Evolves(before, after)
  }

  // What may be written, row by row.

  /** One unrevoked session of the user is revoked, and nothing else in the database changes. */
  ghost predicate RevokesOwn(before: Db, after: Db, u: UserId, sid: SessionId, at: Instant) {
    && sid in before.sessions && before.sessions[sid].owner == u && before.sessions[sid].revokedAt.None?
    && after == before.(sessions := before.sessions[sid := before.sessions[sid].(revokedAt := Some(at))])
  }

  /** Every unrevoked session of the user is revoked, and nothing else in the database changes. */
  ghost predicate RevokesAllOwn(before: Db, after: Db, u: UserId, at: Instant) {
    && after == before.(sessions := after.sessions) && after.sessions.Keys == before.sessions.Keys
    && forall s | s in before.sessions ::
         after.sessions[s] == if before.sessions[s].owner == u && before.sessions[s].revokedAt.None?
                              then before.sessions[s].(revokedAt := Some(at)) else before.sessions[s]
  }

  /** One user row is written anew, and nothing else in the database changes. */
  ghost predicate RowWritten(before: Db, after: Db, u: UserId, row: UserRow) {
    after == before.(users := before.users[u := row])
  }

  /** The user's row is the next version of itself, with this role. */
  ghost predicate RoleWritten(before: Db, after: Db, u: UserId, role: Role) {
    u in before.users
    && RowWritten(before, after, u, before.users[u].(role := role, version := before.users[u].version + 1))
  }

  /** The user's row is the next version of itself, with this status. */
  ghost predicate StatusWritten(before: Db, after: Db, u: UserId, status: Status) {
    u in before.users
    && RowWritten(before, after, u, before.users[u].(status := status, version := before.users[u].version + 1))
  }

  /** The account is deleted and all its unrevoked sessions are revoked, and nothing else changes. */
  ghost predicate DeletionWritten(before: Db, after: Db, u: UserId, at: Instant) {
    && StatusWritten(before, before.(users := after.users), u, Deleted)
    && RevokesAllOwn(before.(users := after.users), after, u, at)
  }

  // The revoking statements only revoke.

  lemma ByIdOnlyRevokes(db: Db, sid: SessionId, at: Instant)
    ensures OnlyRevokes(db.sessions, RevokedById(db, sid, at).sessions)
  {
  }

  lemma ForDeviceOnlyRevokes(db: Db, u: UserId, d: DeviceId, at: Instant)
    ensures OnlyRevokes(db.sessions, RevokedForDevice(db, u, d, at).sessions)
  {
  }

  lemma ForUserOnlyRevokes(db: Db, u: UserId, at: Instant)
    ensures OnlyRevokes(db.sessions, RevokedForUser(db, u, at).sessions)
  {
  }

  /** An AsyncSession and its unit of work. Statements change the transaction's own view,
      which commit publishes and rollback discards. */
  class Database {
    var committed: Db
    var working: Db
    var commits: nat // commits that returned
    var rollbacks: nat

    constructor ()
      ensures committed == working == EMPTY_DB && commits == rollbacks == 0
    {
      committed, working, commits, rollbacks := EMPTY_DB, EMPTY_DB, 0, 0;
    }

    /** With a fault After, the server has committed but the caller sees an exception. */
    method Commit(fault: Fault) returns (ok: bool)
      modifies this
      ensures ok == fault.Silent? && working == old(working) && rollbacks == old(rollbacks)
      ensures committed == if fault.Before? then old(committed) else old(working)
      ensures commits == old(commits) + if ok then 1 else 0
    {
      ok := fault.Silent?;
      if !fault.Before? { committed := working; }
      if ok { commits := commits + 1; }
    }

    method Rollback()
      modifies this
      ensures committed == old(committed) == working
      ensures commits == old(commits) && rollbacks == old(rollbacks) + 1
    {
      working, rollbacks := committed, rollbacks + 1;
    }

    method GetUser(u: UserId, fault: Fault) returns (ok: bool, row: Option<UserRow>)
      ensures ok == fault.Silent? && row == FindUser(working, u)
    {
      ok, row := fault.Silent?, None;
      if u in working.users { row := Some(working.users[u]); }
    }

    method GetSession(sid: SessionId, fault: Fault) returns (ok: bool, row: Option<SessionRow>)
      ensures ok == fault.Silent? && row == FindSession(working, sid)
    {
      ok, row := fault.Silent?, None;
      if sid in working.sessions { row := Some(working.sessions[sid]); }
    }

    method GetSessionForUpdate(sid: SessionId, fault: Fault) returns (ok: bool, row: Option<SessionRow>)
      ensures ok == fault.Silent? && row == FindForUpdate(working, sid)
    {
      ok, row := GetSession(sid, fault);
      if row.Some? && row.value.revokedAt.Some? { row := None; }
    }

    method RevokeSessionById(sid: SessionId, at: Instant, fault: Fault) returns (ok: bool)
      modifies this`working
      ensures ok == fault.Silent?
      ensures ok ==> working == RevokedById(old(working), sid, at)
    {
      ok := fault.Silent?;
      if !fault.Before? { working := RevokedById(working, sid, at); }
    }

    /** Answers whether a row was touched. */
    method RevokeSession(sid: SessionId, u: UserId, at: Instant, fault: Fault) returns (ok: bool, touched: bool)
      modifies this`working
      ensures ok == fault.Silent? && touched == OwnedAndActive(old(working), sid, u)
      ensures ok ==> working == RevokedOwned(old(working), sid, u, at)
    {
      ok, touched := fault.Silent?, OwnedAndActive(working, sid, u);
      if !fault.Before? && touched { working := RevokedById(working, sid, at); }
    }

    method RevokeActiveForDevice(u: UserId, d: DeviceId, at: Instant, fault: Fault) returns (ok: bool)
      modifies this`working
      ensures ok == fault.Silent?
      ensures ok ==> working == RevokedForDevice(old(working), u, d, at)
    {
      ok := fault.Silent?;
      if !fault.Before? { working := RevokedForDevice(working, u, d, at); }
    }

    method RevokeAllActiveForUser(u: UserId, at: Instant, fault: Fault) returns (ok: bool)
      modifies this`working
      ensures ok == fault.Silent?
      ensures ok ==> working == RevokedForUser(old(working), u, at)
    {
      ok := fault.Silent?;
      if !fault.Before? { working := RevokedForUser(working, u, at); }
    }

    method CreateSession(sid: SessionId, row: SessionRow, fault: Fault) returns (ok: bool)
      modifies this`working
      ensures ok == fault.Silent?
      ensures ok ==> working == WithSession(old(working), sid, row)
    {
      ok := fault.Silent?;
      if !fault.Before? { working := WithSession(working, sid, row); }
    }

    method SetVerified(u: UserId, fault: Fault) returns (ok: bool)
      modifies this`working
      ensures ok == fault.Silent?
      ensures ok ==> working == WithVerified(old(working), u)
    {
      ok := fault.Silent?;
      if !fault.Before? { working := WithVerified(working, u); }
    }

    method GetOrCreateUser(email: string, newId: UserId, fault: Fault) returns (ok: bool, u: UserId)
      modifies this`working
      ensures ok == fault.Silent? && u == UserFor(old(working), email, newId)
      ensures ok ==> working == WithUser(old(working), email, newId)
    {
      ok, u := fault.Silent?, UserFor(working, email, newId);
      if !fault.Before? { working := WithUser(working, email, newId); }
    }

    method UpsertDevice(u: UserId, client: string, newId: DeviceId, fault: Fault) returns (ok: bool, d: DeviceId)
      modifies this`working
      ensures ok == fault.Silent? && d == DeviceFor(old(working), u, client, newId)
      ensures ok ==> working == WithDevice(old(working), u, client, newId)
    {
      ok, d := fault.Silent?, DeviceFor(working, u, client, newId);
      if !fault.Before? { working := WithDevice(working, u, client, newId); }
    }

    /** UPDATE ... RETURNING answers the row as written. */
    method UpdateRole(u: UserId, role: Role, fault: Fault) returns (ok: bool, row: Option<UserRow>)
      modifies this`working
      ensures ok == fault.Silent?
      ensures ok ==> working == WithRole(old(working), u, role) && row == FindUser(working, u)
    {
      ok := fault.Silent?;
      if !fault.Before? { working := WithRole(working, u, role); }
      row := FindUser(working, u);
    }

    method UpdateStatus(u: UserId, status: Status, fault: Fault) returns (ok: bool, row: Option<UserRow>)
      modifies this`working
      ensures ok == fault.Silent?
      ensures ok ==> working == WithStatus(old(working), u, status) && row == FindUser(working, u)
    {
      ok := fault.Silent?;
      if !fault.Before? { working := WithStatus(working, u, status); }
      row := FindUser(working, u);
    }
  }
}
