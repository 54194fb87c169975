/** What a refresh does in a reachable state, and what replaying a used refresh token does. */
module Rotation {
  import opened Domain
  import opened AccessStore
  import opened Tables
  import opened Authentication
  import opened Service
  import opened Coherence
  import opened Reachability
  import opened Lineage
  import opened Guarantees

  function OutcomeOf(cfg: Config, w: World, op: Op): Outcome<TokenPair>
    requires op.Refresh?
  {
    RefreshOutcome(cfg, w.st, w.hist.issued, op.seen, w.now, op.signed, op.token, op.newSid)
  }

  /** The step is a refresh with a signed token that had not expired when it was decoded. */
  ghost predicate Presents(w: World, op: Op, c: RefreshClaims) {
    op.Refresh? && op.token == RefreshToken(c) && c in w.hist.issued.refresh && !Expired(c.exp, op.seen)
      && Enabled(w, op)
  }

  /** What a refresh with a signed, unexpired token does in a reachable state, whenever the token was
      decoded and whenever the new one is signed: replay of a revoked session (which revokes
      everything unless the token has expired meanwhile), an expired session, an inactive user, or
      rotation. The branches for a foreign owner and a foreign hash are never taken. */
  lemma RefreshDecides(cfg: Config, w: World, op: Op, c: RefreshClaims)
    requires Reachable(cfg, w) && Presents(w, op, c)
    ensures c.sub in w.st.db.users && c.jti in w.st.db.sessions
    ensures var o := OutcomeOf(cfg, w, op);
            if IsRevoked(w, c.jti) then
              o == Outcome(if Expired(c.exp, w.now) then w.st else RevokeEverything(w.st, c.sub, w.now),
                           Err(InvalidRefreshToken))
            else if w.st.db.sessions[c.jti].expiresAt < w.now then
              o == Outcome(RevokeOne(w.st, c.sub, c.jti, w.now), Err(TokenExpired))
            else if !w.st.db.users[c.sub].status.Active? then
              o.stores.db == w.st.db && o.result == Err(InvalidRefreshToken)
            else
              o.stores.db == Rotated(cfg, w.st.db, w.now, op.signed, c, op.newSid) && o.result.Ok?
  {
    ReachableHolds(cfg, w);
    assert RefreshOk(w.st.db, c);
    assert BelongsToDevice(w.st.db, w.st.db.sessions[c.jti]);
  }

  /** What a decoded token does to any rows at all, reachable or not, when its session is there and
      unrevoked but not rotated: a foreign or forged token costs the account it names, or the session's
      owner, every session; an expired one costs its session. */
  lemma UnfitRevokes(cfg: Config, st: Stores, now: Instant, signed: Instant, c: RefreshClaims, sid: SessionId)
    requires c.jti in st.db.sessions && st.db.sessions[c.jti].revokedAt.None?
    ensures var o, row := RefreshClaimsOutcome(cfg, st, now, signed, c, sid), st.db.sessions[c.jti];
            if row.owner != c.sub then
              RevokesAllOwn(st.db, o.stores.db, c.sub, now) && o.result == Err(InvalidRefreshToken)
            else if row.expiresAt < now then
              RevokesOwn(st.db, o.stores.db, c.sub, c.jti, now) && o.result == Err(TokenExpired)
            else if row.digest != Sha256(c) then
              RevokesAllOwn(st.db, o.stores.db, row.owner, now) && o.result == Err(InvalidRefreshToken)
            else
              o.result.Ok? <==> c.sub in st.db.users && st.db.users[c.sub].status == Active
  {
  }

  /** The token decoded, but by the time the use case reads the clock, after a wait, its session has
      expired: the session is revoked and no pair given. */
  ghost predicate TakesExpiredBranch(cfg: Config, st: Stores, wait: nat, now: Instant, c: RefreshClaims,
                                     sid: SessionId) {
    !Expired(c.exp, now - wait)
    && RefreshClaimsOutcome(cfg, st, now, now, c, sid) == Outcome(RevokeOne(st, c.sub, c.jti, now), Err(TokenExpired))
  }

  lemma ExpiredBranchAt(cfg: Config, st: Stores, wait: nat, now: Instant, c: RefreshClaims, sid: SessionId)
    requires OwnedAndActive(st.db, c.jti, c.sub) && st.db.sessions[c.jti].digest == Sha256(c)
    ensures TakesExpiredBranch(cfg, st, wait, now, c, sid) <==>
              st.db.sessions[c.jti].expiresAt < now < c.exp * SECOND + wait
  {
  }

  /** When the expired branch can be taken at all. jwt_token_service.py reads the clock itself, after
      the use case that opened the session did; and a refresh decodes its token some time before it
      reads the clock, waiting for the advisory lock in between. For a session born at one instant,
      its refresh token signed at a later one, and a given wait, the branch is taken at exactly the
      instants after the session's expiry and before the token's expiry plus the wait; and there
      is such an instant if and only if the last whole second before the signing, plus the wait,
      comes more than a microsecond after the birth. */
  lemma ExpiredBranchExactly(cfg: Config, st: Stores, born: Instant, signed: Instant, wait: nat, u: UserId,
                             d: DeviceId, jti: SessionId, sid: SessionId)
    requires born <= signed && jti in st.db.sessions
    requires st.db.sessions[jti] == NewSession(cfg, u, d, NewRefresh(cfg, u, jti, signed), born)
    ensures var c, life := NewRefresh(cfg, u, jti, signed), cfg.RefreshLifetime();
            && (forall now :: TakesExpiredBranch(cfg, st, wait, now, c, sid) <==>
                              born + life < now < c.exp * SECOND + wait)
            && ((exists now :: TakesExpiredBranch(cfg, st, wait, now, c, sid)) <==>
                born + life + 1 < c.exp * SECOND + wait)
            && (0 <= signed + life ==>
                  ((exists now :: TakesExpiredBranch(cfg, st, wait, now, c, sid)) <==>
                   born + 1 < signed - signed % SECOND + wait))
  {
    var c, life := NewRefresh(cfg, u, jti, signed), cfg.RefreshLifetime();
    forall now ensures TakesExpiredBranch(cfg, st, wait, now, c, sid) <==>
                       born + life < now < c.exp * SECOND + wait {
      ExpiredBranchAt(cfg, st, wait, now, c, sid);
    }
    var first := born + life + 1;
    if first < c.exp * SECOND + wait { assert TakesExpiredBranch(cfg, st, wait, first, c, sid); }
    if 0 <= signed + life { WholeSeconds(cfg, signed); }
  }

  lemma WholeSeconds(cfg: Config, signed: Instant)
    requires 0 <= signed + cfg.RefreshLifetime()
    ensures Timestamp(signed + cfg.RefreshLifetime()) * SECOND == cfg.RefreshLifetime() + signed - signed % SECOND
  {
    var whole := cfg.refreshDays * 86_400;
    assert cfg.RefreshLifetime() == whole * SECOND;
    assert signed + cfg.RefreshLifetime() == (whole + signed / SECOND) * SECOND + signed % SECOND;
  }

  /** Every session, key and sorted-set entry but the rotated one, and every other table, is as before. */
  ghost predicate TouchesOnly(before: Stores, after: Stores, c: RefreshClaims, sid: SessionId) {
    && after.db == before.db.(sessions := after.db.sessions)
    && after.db.sessions.Keys == before.db.sessions.Keys + {sid}
    && (forall s | s in before.db.sessions && s != c.jti :: after.db.sessions[s] == before.db.sessions[s])
    && after.logins == before.logins
    && after.cache.versions == before.cache.versions
    && after.cache.keys == before.cache.keys - {c.jti}
    && (forall u | u != c.sub :: Members(after.cache, u) == Members(before.cache, u))
    && Members(after.cache, c.sub) == Members(before.cache, c.sub) - {c.jti}
  }

  lemma RotatedTouchesOnly(cfg: Config, st: Stores, now: Instant, signed: Instant, c: RefreshClaims, sid: SessionId)
    requires c.jti in st.db.sessions && sid !in st.db.sessions
    ensures var db, cache := Rotated(cfg, st.db, now, signed, c, sid), Dropped(st.cache, c.sub, c.jti);
            TouchesOnly(st, st.(db := db, cache := cache), c, sid)
  {
  }

  /** A rotation revokes the old session, adds a live one for the same owner and device, signs
      a pair carrying the owner's role and version, and touches nothing else. */
  lemma RotationIsExact(cfg: Config, w: World, op: Op, c: RefreshClaims)
    requires Reachable(cfg, w) && Presents(w, op, c)
    requires !IsRevoked(w, c.jti) && c.jti in w.st.db.sessions && w.now <= w.st.db.sessions[c.jti].expiresAt
    requires c.sub in w.st.db.users && w.st.db.users[c.sub].status.Active?
    ensures var before, o, sid := w.st.db.sessions, OutcomeOf(cfg, w, op), op.newSid;
            var after := o.stores.db.sessions;
            && o.result.Ok? && c.jti in after && sid in after
            && after[c.jti] == before[c.jti].(revokedAt := Some(w.now))
            && after[sid].owner == c.sub && after[sid].device == before[c.jti].device
            && after[sid].revokedAt.None? && after[sid].digest == Sha256(o.result.value.refresh)
            && after[sid].expiresAt == w.now + cfg.RefreshLifetime()
            && o.result.value.refresh == NewRefresh(cfg, c.sub, sid, op.signed)
            && PrincipalOf(o.result.value.access)
               == Principal(c.sub, sid, w.st.db.users[c.sub].role, w.st.db.users[c.sub].version)
            && TouchesOnly(w.st, o.stores, c, sid)
  {
    RefreshDecides(cfg, w, op, c);
    RotatedTouchesOnly(cfg, w.st, w.now, op.signed, c, op.newSid);
    ReachableHolds(cfg, w);
    assert RefreshOk(w.st.db, c);
  }

  /** The session was rotated away by an earlier refresh. */
  predicate Superseded(w: World, sid: SessionId) {
    sid in w.hist.descent.successor
  }

  lemma SupersededIsRevoked(cfg: Config, w: World, sid: SessionId)
    requires Reachable(cfg, w) && Superseded(w, sid)
    ensures IsRevoked(w, sid)
  {
    ReachableLineage(cfg, w);
    assert Replaces(w.st.db.sessions, w.hist.descent, w.hist.descent.successor[sid]);
  }

  /** After a replay every session of the user is revoked. */
  lemma ReplayRevokesFamily(cfg: Config, w: World, op: Op, c: RefreshClaims, s: SessionId)
    requires Reachable(cfg, w) && Presents(w, op, c) && !Expired(c.exp, w.now) && IsRevoked(w, c.jti)
    requires s in w.st.db.sessions && w.st.db.sessions[s].owner == c.sub
    ensures IsRevoked(AfterRefresh(cfg, w, op), s)
  {
    RefreshDecides(cfg, w, op, c);
  }

  lemma TokenHasSession(cfg: Config, w: World, t: AccessClaims)
    requires Reachable(cfg, w) && t in w.hist.issued.access
    ensures t.sid in w.st.db.sessions && w.st.db.sessions[t.sid].owner == t.sub
  {
    ReachableHolds(cfg, w);
    assert AccessOk(cfg, w.st.db, t);
  }

  /** Replaying a superseded refresh token that has not expired kills every access token the user
      holds: each is refused in every continuation, the second of grace aside. */
  lemma ReplayKillsFamily(cfg: Config, w: World, op: Op, c: RefreshClaims, ops: seq<Op>, t: AccessClaims)
    requires Reachable(cfg, w) && Presents(w, op, c) && !Expired(c.exp, w.now) && Superseded(w, c.jti)
    requires ValidRun(cfg, AfterRefresh(cfg, w, op), ops)
    requires t in w.hist.issued.access && t.sub == c.sub
    ensures var last := Run(cfg, AfterRefresh(cfg, w, op), ops);
            IsRevoked(last, t.sid) && (!InGrace(last, t.sid) ==> Answer(last, AccessToken(t)).Err?)
  {
    SupersededIsRevoked(cfg, w, c.jti);
    TokenHasSession(cfg, w, t);
    ReplayRevokesFamily(cfg, w, op, c, t.sid);
    Reaches(cfg, w, op);
    RevocationIsFinal(cfg, AfterRefresh(cfg, w, op), ops, t);
  }
}
