/** app/common/authorization/redis_store.py: what Redis knows about versions and sessions. */
module AccessStore {
  import opened Domain

  /** The value of a session key together with the instant Redis drops it. */
  datatype SessionKey = SessionKey(owner: UserId, deadline: Instant)

  /** versions: the version key of a user; keys: the session keys; index: per user the
      sorted set of session ids, scored by expiry. */
  datatype Cache = Cache(
    versions: map<UserId, int>,
    keys: map<SessionId, SessionKey>,
    index: map<UserId, map<SessionId, Instant>>)

  const EMPTY_CACHE := Cache(map[], map[], map[])

  datatype CachedAccessState = CachedAccessState(version: Option<int>, active: Option<bool>)

  function Members(c: Cache, u: UserId): map<SessionId, Instant> {
    if u in c.index then c.index[u] else map[]
  }

  predicate KeyLive(c: Cache, now: Instant, sid: SessionId) {
    sid in c.keys && now < c.keys[sid].deadline
  }

  function Lookup(c: Cache, now: Instant, u: UserId, sid: SessionId): CachedAccessState {
    CachedAccessState(
      if u in c.versions then Some(c.versions[u]) else None,
      if KeyLive(c, now, sid) then Some(c.keys[sid].owner == u) else None)
  }

  /** The set-if-greater script. */
  function Published(c: Cache, u: UserId, version: int): Cache {
    if u !in c.versions || version > c.versions[u]
    then c.(versions := c.versions[u := version])
    else c
  }

  function TtlSeconds(expiresAt: Instant, now: Instant): int {
    Max(1, TruncDiv(expiresAt - now, SECOND))
  }

  /** zremrangebyscore 0 now. */
  function Pruned(members: map<SessionId, Instant>, now: Instant): map<SessionId, Instant> {
    map s | s in members && !(0 <= members[s] <= now) :: members[s]
  }

  function Keyed(c: Cache, now: Instant, u: UserId, sid: SessionId, expiresAt: Instant): Cache {
    c.(keys := c.keys[sid := SessionKey(u, now + TtlSeconds(expiresAt, now) * SECOND)],
       index := c.index[u := Pruned(Members(c, u), now)[sid := expiresAt]])
  }

  function Filled(c: Cache, now: Instant, u: UserId, version: int, sid: SessionId, expiresAt: Instant): Cache {
    Keyed(Published(c, u, version), now, u, sid, expiresAt)
  }

  function Dropped(c: Cache, u: UserId, sid: SessionId): Cache {
    c.(keys := c.keys - {sid}, index := c.index[u := Members(c, u) - {sid}])
  }

  function Swept(c: Cache, u: UserId): Cache {
    c.(keys := c.keys - Members(c, u).Keys, index := c.index - {u})
  }

  /** A key outlives its session by at most a second, and only when less than a second
      was left to it; it never dies more than a second early. */
  lemma DeadlineBound(expiresAt: Instant, now: Instant)
    requires now <= expiresAt
    ensures var deadline := now + TtlSeconds(expiresAt, now) * SECOND;
            && now < deadline <= expiresAt + SECOND
            && expiresAt - SECOND < deadline
            && (deadline > expiresAt <==> expiresAt - now < SECOND)
  {
    TimestampBounds(expiresAt - now);
  }

  /** The store itself: three families of Redis keys updated in place. A method answers
      false when a scheduled fault makes the call raise. */
  class RedisAccessStateStore {
    var versions: map<UserId, int>
    var keys: map<SessionId, SessionKey>
    var index: map<UserId, map<SessionId, Instant>>

    constructor ()
      ensures Contents() == EMPTY_CACHE
    {
      versions, keys, index := map[], map[], map[];
    }

    function Contents(): Cache
      reads this
    {
      Cache(versions, keys, index)
    }

    method Get(u: UserId, sid: SessionId, now: Instant, fault: Fault) returns (ok: bool, state: CachedAccessState)
      ensures ok == fault.Silent?
      ensures ok ==> state == Lookup(Contents(), now, u, sid)
      ensures state.version == (if u in versions then Some(versions[u]) else None)
      ensures state.active == if sid in keys && now < keys[sid].deadline then Some(keys[sid].owner == u) else None
    {
      ok := fault.Silent?;
      var version := if u in versions then Some(versions[u]) else None;
      var active := None;
      if sid in keys && now < keys[sid].deadline {
        active := Some(keys[sid].owner == u);
      }
      state := CachedAccessState(version, active);
    }

    method SetAuthorizationVersion(u: UserId, version: int, fault: Fault) returns (ok: bool)
      modifies this
      ensures ok == fault.Silent?
      ensures Contents() == if fault.Before? then old(Contents()) else Published(old(Contents()), u, version)
      ensures keys == old(keys) && index == old(index)
      ensures !fault.Before? ==>
        versions == old(versions)[u := if u in old(versions) then Max(version, old(versions)[u]) else version]
    {
      ok := fault.Silent?;
      if !fault.Before? && (u !in versions || version > versions[u]) {
        versions := versions[u := version];
      }
    }

    method CacheSession(u: UserId, version: int, sid: SessionId, expiresAt: Instant, now: Instant,
                        evalFault: Fault, pipeFault: Fault)
      returns (ok: bool)
      modifies this
      ensures ok == (evalFault.Silent? && pipeFault.Silent?)
      ensures ok ==> Contents() == Filled(old(Contents()), now, u, version, sid, expiresAt)
      ensures !ok ==> Contents() in {old(Contents()), Published(old(Contents()), u, version),
                                     Filled(old(Contents()), now, u, version, sid, expiresAt)}
      ensures ok ==>
        && sid in keys && keys == old(keys)[sid := SessionKey(u, keys[sid].deadline)] && u in index
        && index == old(index)[u := index[u]] && sid in index[u] && index[u][sid] == expiresAt
        && forall s | s != sid ::
             (s in index[u] <==> s in Members(old(Contents()), u) && !(0 <= Members(old(Contents()), u)[s] <= now))
             && (s in index[u] ==> index[u][s] == Members(old(Contents()), u)[s])
    {
      ok := SetAuthorizationVersion(u, version, evalFault);
      if !ok { return; }
      ok := pipeFault.Silent?;
      if pipeFault.Before? { return; }
      var members := if u in index then index[u] else map[];
      keys := keys[sid := SessionKey(u, now + TtlSeconds(expiresAt, now) * SECOND)];
      members := Pruned(members, now);
      index := index[u := members[sid := expiresAt]];
    }

    method RevokeSession(u: UserId, sid: SessionId, fault: Fault) returns (ok: bool)
      modifies this
      ensures ok == fault.Silent?
      ensures Contents() == if fault.Before? then old(Contents()) else Dropped(old(Contents()), u, sid)
      ensures !fault.Before? ==>
        versions == old(versions) && keys == old(keys) - {sid} && u in index
        && index == old(index)[u := Members(old(Contents()), u) - {sid}]
    {
      ok := fault.Silent?;
      if !fault.Before? {
        keys := keys - {sid};
        index := index[u := (if u in index then index[u] else map[]) - {sid}];
      }
    }

    method RevokeAllSessions(u: UserId, readFault: Fault, pipeFault: Fault) returns (ok: bool)
      modifies this
      ensures ok == (readFault.Silent? && pipeFault.Silent?)
      ensures Contents() == if readFault.Silent? && !pipeFault.Before?
                            then Swept(old(Contents()), u) else old(Contents())
      ensures readFault.Silent? && !pipeFault.Before? ==>
        && versions == old(versions) && index == old(index) - {u}
        && keys == old(keys) - Members(old(Contents()), u).Keys
    {
      ok := readFault.Silent? && pipeFault.Silent?;
      if !readFault.Silent? || pipeFault.Before? { return; }
      var members := if u in index then index[u] else map[];
      keys := keys - members.Keys;
      index := index - {u};
    }
  }
}
