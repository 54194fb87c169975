/** What ties Redis to the database in every reachable state, proved step by step. */
module Coherence {
  import opened Domain
  import opened AccessStore
  import opened Tables
  import opened LoginStore
  import opened Authentication
  import opened Service

  /** The unique indexes lead to rows, and a session's device belongs to its owner. */
  ghost predicate RowsOk(db: Db) {
    && (forall e | e in db.emails :: db.emails[e] in db.users)
    && (forall k | k in db.clients :: db.clients[k] in db.devices && db.devices[db.clients[k]] == k.0)
    && (forall d | d in db.devices :: db.devices[d] in db.users)
    && (forall s | s in db.sessions :: BelongsToDevice(db, db.sessions[s]))
  }

  ghost predicate BelongsToDevice(db: Db, row: SessionRow) {
    row.owner in db.users && row.device in db.devices && db.devices[row.device] == row.owner
  }

  /** Redis knows a user's version exactly, and may be ignorant of it only while it is 1. */
  ghost predicate VersionsOk(db: Db, cache: Cache) {
    && cache.versions.Keys <= db.users.Keys
    && (forall u | u in db.users :: VersionKnown(cache, u, db.users[u].version))
  }

  ghost predicate VersionKnown(cache: Cache, u: UserId, version: int) {
    1 <= version && (if u in cache.versions then cache.versions[u] == version else version == 1)
  }

  /** What a signed access token says about the rows it names. */
  ghost predicate AccessOk(cfg: Config, db: Db, t: AccessClaims) {
    && t.sid in db.sessions && db.sessions[t.sid].owner == t.sub
    && t.sub in db.users && 1 <= t.av <= db.users[t.sub].version
    && (t.av == db.users[t.sub].version ==> t.role == db.users[t.sub].role)
    && t.exp == Timestamp(db.sessions[t.sid].expiresAt - cfg.RefreshLifetime() + cfg.AccessLifetime())
  }

  ghost predicate RefreshOk(db: Db, t: RefreshClaims) {
    && t.jti in db.sessions && db.sessions[t.jti].owner == t.sub
    && db.sessions[t.jti].digest == Sha256(t)
    && Timestamp(db.sessions[t.jti].expiresAt) <= t.exp
  }

  ghost predicate TokensOk(cfg: Config, db: Db, issued: Issued) {
    && (forall t | t in issued.access :: AccessOk(cfg, db, t))
    && (forall t | t in issued.refresh :: RefreshOk(db, t))
    && OneTokenPerSession(issued)
  }

  ghost predicate OneTokenPerSession(issued: Issued) {
    forall a, b | a in issued.access && b in issued.access && a.sid == b.sid :: a == b
  }

  /** Nothing in Redis speaks for a session past its second of grace; and while the session's
      own expiry is ahead, a key vouches for an unrevoked session and is listed in the index. */
  ghost predicate KeyOk(now: Instant, db: Db, cache: Cache, sid: SessionId)
    requires sid in cache.keys
  {
    var key := cache.keys[sid];
    && sid in db.sessions && db.sessions[sid].owner == key.owner
    && key.deadline <= db.sessions[sid].expiresAt + SECOND
    && (now < db.sessions[sid].expiresAt ==>
          db.sessions[sid].revokedAt.None? && sid in Members(cache, key.owner))
  }

  /** A token whose session has a key is either out of date or names an active user. */
  ghost predicate Vouched(db: Db, cache: Cache, t: AccessClaims) {
    t.sid in cache.keys && t.sub in db.users && t.av == db.users[t.sub].version ==> db.users[t.sub].status.Active?
  }

  ghost predicate KeysOk(now: Instant, db: Db, cache: Cache, issued: Issued) {
    && (forall s | s in cache.keys :: KeyOk(now, db, cache, s))
    && (forall t | t in issued.access :: Vouched(db, cache, t))
  }

  /** Sorted sets hold sessions of their owner only, scored by expiry. */
  ghost predicate IndexOk(db: Db, cache: Cache) {
    forall u, s | u in cache.index && s in cache.index[u] ::
      s in db.sessions && db.sessions[s].owner == u && cache.index[u][s] == db.sessions[s].expiresAt
  }

  ghost predicate Coherent(cfg: Config, now: Instant, db: Db, cache: Cache, issued: Issued) {
    && RowsOk(db)
    && VersionsOk(db, cache)
    && TokensOk(cfg, db, issued)
    && KeysOk(now, db, cache, issued)
    && IndexOk(db, cache)
  }

  /** Stored login requests name a device and its owner. */
  ghost predicate LoginsOk(db: Db, logins: Logins) {
    forall id | id in logins.requests ::
      var r := logins.requests[id].request;
      r.user in db.users && r.device in db.devices && db.devices[r.device] == r.user
  }

  ghost predicate StoresOk(cfg: Config, now: Instant, st: Stores, issued: Issued) {
    match st
    case Stores(db, cache, logins) => Coherent(cfg, now, db, cache, issued) && LoginsOk(db, logins)
  }

  ghost predicate Inv(cfg: Config, w: World) {
    match w
    case World(now, st, hist) => 0 <= now && StoresOk(cfg, now, st, hist.issued)
  }

  // ----- what survives a change of rows -----

  /** A user's role and status may change only along with a higher version. */
  ghost predicate UsersKept(before: map<UserId, UserRow>, after: map<UserId, UserRow>) {
    forall u | u in before :: u in after && RowKept(before[u], after[u])
  }

  ghost predicate RowKept(before: UserRow, after: UserRow) {
    after.version > before.version
    || (after.version == before.version && after.role == before.role && after.status == before.status)
  }

  lemma TokensKept(cfg: Config, db: Db, after: Db, issued: Issued)
    requires TokensOk(cfg, db, issued)
    requires Evolves(db.sessions, after.sessions) && UsersKept(db.users, after.users)
    ensures TokensOk(cfg, after, issued)
  {
    forall t | t in issued.access ensures AccessOk(cfg, after, t) {
      assert AccessOk(cfg, db, t) && RowKept(db.users[t.sub], after.users[t.sub]);
    }
    forall t | t in issued.refresh ensures RefreshOk(after, t) { assert RefreshOk(db, t); }
  }

  lemma VouchersKept(cfg: Config, now: Instant, db: Db, after: Db, cache: Cache, left: Cache, issued: Issued)
    requires TokensOk(cfg, db, issued) && KeysOk(now, db, cache, issued)
    requires UsersKept(db.users, after.users) && left.keys.Keys <= cache.keys.Keys
    ensures forall t | t in issued.access :: Vouched(after, left, t)
  {
    forall t | t in issued.access ensures Vouched(after, left, t) {
      assert AccessOk(cfg, db, t) && Vouched(db, cache, t) && RowKept(db.users[t.sub], after.users[t.sub]);
    }
  }

  lemma RowsKept(db: Db, after: Db)
    requires RowsOk(db)
    requires Evolves(db.sessions, after.sessions) && after.sessions.Keys == db.sessions.Keys
    requires db.users.Keys <= after.users.Keys
    requires forall d | d in db.devices :: d in after.devices && after.devices[d] == db.devices[d]
    ensures forall s | s in after.sessions :: BelongsToDevice(after, after.sessions[s])
  {
    forall s | s in after.sessions ensures BelongsToDevice(after, after.sessions[s]) {
      assert BelongsToDevice(db, db.sessions[s]);
    }
  }

  /** Users and devices may change under the sessions, if the two tables stay sound and Redis
      is told of versions. */
  lemma SessionsUntouched(cfg: Config, now: Instant, db: Db, after: Db, cache: Cache, told: Cache, issued: Issued)
    requires Coherent(cfg, now, db, cache, issued)
    requires after.sessions == db.sessions && UsersKept(db.users, after.users)
    requires told.keys == cache.keys && told.index == cache.index
    requires RowsOk(after) && VersionsOk(after, told)
    ensures Coherent(cfg, now, after, told, issued)
  {
    TokensKept(cfg, db, after, issued);
    VouchersKept(cfg, now, db, after, cache, told, issued);
    forall s | s in told.keys ensures KeyOk(now, after, told, s) { assert KeyOk(now, db, cache, s); }
  }

  /** Sessions may be revoked and keys dropped, if what is left in Redis still holds. */
  lemma SessionsRevised(cfg: Config, now: Instant, db: Db, sessions: map<SessionId, SessionRow>, cache: Cache,
                        left: Cache, issued: Issued)
    requires Coherent(cfg, now, db, cache, issued) && OnlyRevokes(db.sessions, sessions)
    requires left.versions == cache.versions && left.keys.Keys <= cache.keys.Keys
    requires forall s | s in left.keys :: KeyOk(now, db.(sessions := sessions), left, s)
    requires IndexOk(db.(sessions := sessions), left)
    ensures Coherent(cfg, now, db.(sessions := sessions), left, issued)
  {
    var after := db.(sessions := sessions);
    TokensKept(cfg, db, after, issued);
    VouchersKept(cfg, now, db, after, cache, left, issued);
    RowsKept(db, after);
  }

  lemma IndexKept(db: Db, after: Db, cache: Cache, left: Cache)
    requires IndexOk(db, cache) && Evolves(db.sessions, after.sessions)
    requires forall u, s | u in left.index && s in left.index[u] ::
      u in cache.index && s in cache.index[u] && left.index[u][s] == cache.index[u][s]
    ensures IndexOk(after, left)
  {
    forall u, s | u in left.index && s in left.index[u]
      ensures s in after.sessions && after.sessions[s].owner == u && left.index[u][s] == after.sessions[s].expiresAt
    {
      assert u in cache.index && s in cache.index[u];
      assert RowEvolves(db.sessions[s], after.sessions[s]);
    }
  }

  // ----- the elementary changes -----

  lemma TimePasses(cfg: Config, now: Instant, later: Instant, db: Db, cache: Cache, issued: Issued)
    requires Coherent(cfg, now, db, cache, issued) && now <= later
    ensures Coherent(cfg, later, db, cache, issued)
  {
    forall s | s in cache.keys ensures KeyOk(later, db, cache, s) { assert KeyOk(now, db, cache, s); }
  }

  lemma KeyLost(cfg: Config, now: Instant, db: Db, cache: Cache, issued: Issued, sid: SessionId)
    requires Coherent(cfg, now, db, cache, issued)
    ensures Coherent(cfg, now, db, cache.(keys := cache.keys - {sid}), issued)
  {
    var after := cache.(keys := cache.keys - {sid});
    forall s | s in after.keys ensures KeyOk(now, db, after, s) { assert KeyOk(now, db, cache, s); }
    forall t | t in issued.access ensures Vouched(db, after, t) { assert Vouched(db, cache, t); }
  }

  lemma KeyDropped(cfg: Config, now: Instant, db: Db, cache: Cache, issued: Issued, u: UserId, sid: SessionId)
    requires Coherent(cfg, now, db, cache, issued)
    ensures Coherent(cfg, now, db, Dropped(cache, u, sid), issued)
  {
    var after := Dropped(cache, u, sid);
    forall s | s in after.keys ensures KeyOk(now, db, after, s) { assert KeyOk(now, db, cache, s); }
    forall t | t in issued.access ensures Vouched(db, after, t) { assert Vouched(db, cache, t); }
    forall v, s | v in after.index && s in after.index[v]
      ensures s in db.sessions && db.sessions[s].owner == v && after.index[v][s] == db.sessions[s].expiresAt
    {
      assert v in cache.index && s in cache.index[v];
    }
  }

  lemma UserRowAdded(db: Db, email: string, u: UserId)
    requires RowsOk(db) && u !in db.users
    ensures RowsOk(WithUser(db, email, u))
  {
    RowsKept(db, WithUser(db, email, u));
  }

  lemma DeviceRowAdded(db: Db, u: UserId, client: string, d: DeviceId)
    requires RowsOk(db) && u in db.users && d !in db.devices
    ensures RowsOk(WithDevice(db, u, client, d))
  {
    RowsKept(db, WithDevice(db, u, client, d));
  }

  lemma UserAdded(cfg: Config, now: Instant, db: Db, cache: Cache, issued: Issued, email: string, u: UserId)
    requires Coherent(cfg, now, db, cache, issued) && u !in db.users
    ensures Coherent(cfg, now, WithUser(db, email, u), cache, issued)
  {
    var after := WithUser(db, email, u);
    UserRowAdded(db, email, u);
    assert VersionsOk(after, cache) by {
      forall v | v in after.users ensures VersionKnown(cache, v, after.users[v].version) {
        if v in db.users { assert VersionKnown(cache, v, db.users[v].version); }
      }
    }
    SessionsUntouched(cfg, now, db, after, cache, cache, issued);
  }

  lemma DeviceAdded(cfg: Config, now: Instant, db: Db, cache: Cache, issued: Issued, u: UserId, client: string,
                    d: DeviceId)
    requires Coherent(cfg, now, db, cache, issued) && d !in db.devices && u in db.users
    ensures Coherent(cfg, now, WithDevice(db, u, client, d), cache, issued)
  {
    DeviceRowAdded(db, u, client, d);
    SessionsUntouched(cfg, now, db, WithDevice(db, u, client, d), cache, cache, issued);
  }

  /** Redis is told of a version that went up. */
  function Told(cache: Cache, db: Db, u: UserId, row: UserRow): Cache
    requires u in db.users
  {
    if row.version == db.users[u].version + 1 then Published(cache, u, row.version) else cache
  }

  lemma VersionsTold(db: Db, cache: Cache, u: UserId, row: UserRow)
    requires VersionsOk(db, cache) && u in db.users
    requires row.version == db.users[u].version + 1 || row.version == db.users[u].version
    ensures VersionsOk(db.(users := db.users[u := row]), Told(cache, db, u, row))
  {
    var told, after := Told(cache, db, u, row), db.users[u := row];
    forall v | v in after ensures VersionKnown(told, v, after[v].version) {
      assert VersionKnown(cache, v, db.users[v].version);
    }
  }

  /** A user row changes: either nothing the tokens speak of, or the version goes up by one
      and Redis is told. */
  lemma UserChanged(cfg: Config, now: Instant, db: Db, cache: Cache, issued: Issued, u: UserId, row: UserRow)
    requires Coherent(cfg, now, db, cache, issued) && u in db.users
    requires row.version == db.users[u].version + 1
             || row == db.users[u].(verified := row.verified)
    ensures Coherent(cfg, now, db.(users := db.users[u := row]), Told(cache, db, u, row), issued)
  {
    var after := db.(users := db.users[u := row]);
    RowsKept(db, after);
    VersionsTold(db, cache, u, row);
    SessionsUntouched(cfg, now, db, after, cache, Told(cache, db, u, row), issued);
  }

  lemma SessionEnded(cfg: Config, now: Instant, db: Db, cache: Cache, issued: Issued, u: UserId, sid: SessionId,
                     at: Instant)
    requires Coherent(cfg, now, db, cache, issued)
    ensures Coherent(cfg, now, RevokedById(db, sid, at), Dropped(cache, u, sid), issued)
  {
    KeyDropped(cfg, now, db, cache, issued, u, sid);
    ByIdOnlyRevokes(db, sid, at);
    var after, dropped := RevokedById(db, sid, at), Dropped(cache, u, sid);
    forall s | s in dropped.keys ensures KeyOk(now, after, dropped, s) { assert KeyOk(now, db, dropped, s); }
    IndexKept(db, after, dropped, dropped);
    SessionsRevised(cfg, now, db, after.sessions, dropped, dropped, issued);
  }

  /** Some of a user's sessions are revoked and all the user's keys swept. */
  lemma SessionsSwept(cfg: Config, now: Instant, db: Db, cache: Cache, issued: Issued, u: UserId,
                      sessions: map<SessionId, SessionRow>)
    requires Coherent(cfg, now, db, cache, issued) && OnlyRevokes(db.sessions, sessions)
    requires forall s | s in db.sessions && db.sessions[s].owner != u :: sessions[s] == db.sessions[s]
    ensures Coherent(cfg, now, db.(sessions := sessions), Swept(cache, u), issued)
  {
    var after, swept := db.(sessions := sessions), Swept(cache, u);
    forall s | s in swept.keys ensures KeyOk(now, after, swept, s) {
      assert KeyOk(now, db, cache, s) && RowEvolves(db.sessions[s], sessions[s]);
    }
    IndexKept(db, after, cache, swept);
    SessionsRevised(cfg, now, db, sessions, cache, swept, issued);
  }

  lemma RefreshMinted(cfg: Config, now: Instant, signed: Instant, db: Db, u: UserId, d: DeviceId, sid: SessionId,
                      token: RefreshClaims)
    requires now <= signed && token == NewRefresh(cfg, u, sid, signed)
    ensures RefreshOk(WithSession(db, sid, NewSession(cfg, u, d, token, now)), token)
  {
    TimestampMonotone(now + cfg.RefreshLifetime(), signed + cfg.RefreshLifetime());
  }

  lemma TokensMinted(cfg: Config, now: Instant, signed: Instant, db: Db, issued: Issued, u: UserId, d: DeviceId,
                     sid: SessionId, pair: TokenPair)
    requires now <= signed
    requires TokensOk(cfg, db, issued)
    requires u in db.users && 1 <= db.users[u].version && sid !in db.sessions
    requires pair.refresh == NewRefresh(cfg, u, sid, signed)
    requires pair.access == NewAccess(cfg, u, sid, db.users[u].role, db.users[u].version, now)
    ensures TokensOk(cfg, WithSession(db, sid, NewSession(cfg, u, d, pair.refresh, now)), Recorded(issued, pair))
  {
    TokensKept(cfg, db, WithSession(db, sid, NewSession(cfg, u, d, pair.refresh, now)), issued);
    RefreshMinted(cfg, now, signed, db, u, d, sid, pair.refresh);
    forall t | t in issued.access ensures t.sid != sid { assert AccessOk(cfg, db, t); }
  }

  lemma RowMinted(db: Db, u: UserId, d: DeviceId, sid: SessionId, row: SessionRow)
    requires RowsOk(db) && u in db.users && d in db.devices && db.devices[d] == u && sid !in db.sessions
    requires row.owner == u && row.device == d
    ensures RowsOk(WithSession(db, sid, row))
  {
    var after := WithSession(db, sid, row);
    forall s | s in after.sessions ensures BelongsToDevice(after, after.sessions[s]) {
      if s != sid { assert BelongsToDevice(db, db.sessions[s]); }
    }
  }

  lemma KeysMinted(cfg: Config, now: Instant, db: Db, after: Db, cache: Cache, issued: Issued, pair: TokenPair)
    requires KeysOk(now, db, cache, issued) && pair.access.sid !in db.sessions && pair.access.sid in after.sessions
    requires after == WithSession(db, pair.access.sid, after.sessions[pair.access.sid])
    ensures KeysOk(now, after, cache, Recorded(issued, pair))
  {
    forall s | s in cache.keys ensures s != pair.access.sid && KeyOk(now, after, cache, s) {
      assert KeyOk(now, db, cache, s);
    }
    forall t | t in Recorded(issued, pair).access ensures Vouched(after, cache, t) {
      assert t in issued.access ==> Vouched(db, cache, t);
    }
  }

  /** A session is created under a new identifier together with its one pair of tokens. */
  lemma SessionMinted(cfg: Config, now: Instant, signed: Instant, db: Db, cache: Cache, issued: Issued, u: UserId,
                      d: DeviceId, sid: SessionId, pair: TokenPair)
    requires now <= signed
    requires Coherent(cfg, now, db, cache, issued)
    requires u in db.users && d in db.devices && db.devices[d] == u && sid !in db.sessions
    requires pair.refresh == NewRefresh(cfg, u, sid, signed)
    requires pair.access == NewAccess(cfg, u, sid, db.users[u].role, db.users[u].version, now)
    ensures Coherent(cfg, now, WithSession(db, sid, NewSession(cfg, u, d, pair.refresh, now)), cache,
        Recorded(issued, pair))
  {
    var row := NewSession(cfg, u, d, pair.refresh, now);
    assert VersionKnown(cache, u, db.users[u].version);
    TokensMinted(cfg, now, signed, db, issued, u, d, sid, pair);
    RowMinted(db, u, d, sid, row);
    KeysMinted(cfg, now, db, WithSession(db, sid, row), cache, issued, pair);
  }

  /** The slow path fills the cache: the keys. */
  lemma FilledKeys(cfg: Config, now: Instant, db: Db, cache: Cache, issued: Issued, c: AccessClaims)
    requires Coherent(cfg, now, db, cache, issued) && c in issued.access
    requires SlowAnswer(db, now, c).Ok?
    ensures KeysOk(now, db, Filled(cache, now, c.sub, c.av, c.sid, db.sessions[c.sid].expiresAt), issued)
  {
    var expiresAt := db.sessions[c.sid].expiresAt;
    var filled := Filled(cache, now, c.sub, c.av, c.sid, expiresAt);
    DeadlineBound(expiresAt, now);
    forall s | s in filled.keys ensures KeyOk(now, db, filled, s) {
      if s != c.sid {
        assert KeyOk(now, db, cache, s);
        if now < db.sessions[s].expiresAt && cache.keys[s].owner == c.sub {
          assert c.sub in cache.index && cache.index[c.sub][s] == db.sessions[s].expiresAt;
        }
      }
    }
    forall t | t in issued.access ensures Vouched(db, filled, t) {
      assert Vouched(db, cache, t) && AccessOk(cfg, db, t);
    }
  }

  lemma FilledVersions(now: Instant, db: Db, cache: Cache, c: AccessClaims)
    requires VersionsOk(db, cache) && SlowAnswer(db, now, c).Ok?
    ensures VersionsOk(db, Published(cache, c.sub, c.av))
  {
    var told := Published(cache, c.sub, c.av);
    forall v | v in db.users ensures VersionKnown(told, v, db.users[v].version) {
      assert VersionKnown(cache, v, db.users[v].version);
    }
  }

  lemma FilledIndex(now: Instant, db: Db, cache: Cache, u: UserId, sid: SessionId)
    requires IndexOk(db, cache) && sid in db.sessions && db.sessions[sid].owner == u
    ensures IndexOk(db, Keyed(cache, now, u, sid, db.sessions[sid].expiresAt))
  {
    var keyed := Keyed(cache, now, u, sid, db.sessions[sid].expiresAt);
    forall v, s | v in keyed.index && s in keyed.index[v]
      ensures s in db.sessions && db.sessions[s].owner == v && keyed.index[v][s] == db.sessions[s].expiresAt
    {
      if v != u || s != sid { assert v in cache.index && s in cache.index[v]; }
    }
  }

  lemma CacheFilled(cfg: Config, now: Instant, db: Db, cache: Cache, issued: Issued, c: AccessClaims)
    requires Coherent(cfg, now, db, cache, issued) && c in issued.access
    requires SlowAnswer(db, now, c).Ok?
    ensures Coherent(cfg, now, db, Filled(cache, now, c.sub, c.av, c.sid, db.sessions[c.sid].expiresAt), issued)
  {
    FilledKeys(cfg, now, db, cache, issued, c);
    FilledVersions(now, db, cache, c);
    FilledIndex(now, db, Published(cache, c.sub, c.av), c.sub, c.sid);
  }
}
