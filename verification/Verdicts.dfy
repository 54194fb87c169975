/** What validate and a refresh's decoding answer in a reachable state, read off the claims and the
    rows alone. */
module Verdicts {
  import opened Domain
  import opened AccessStore
  import opened Tables
  import opened Authentication
  import opened Service
  import opened Coherence
  import opened Reachability
  import opened Guarantees

  // ----- tokens that do not decode -----

  /** Nothing but a signed access token that has not reached its exp second gets past decoding; and
      the refusal says why. */
  lemma UndecodedIsRefused(w: World, token: Token)
    ensures token.AccessToken? && token.access !in w.hist.issued.access ==> Answer(w, token) == Err(InvalidToken)
    ensures token.AccessToken? && token.access in w.hist.issued.access && token.access.exp * SECOND <= w.now ==>
        Answer(w, token) == Err(TokenExpired)
    ensures token.RefreshToken? ==>
        Answer(w, token) == Err(if token.refresh in w.hist.issued.refresh && token.refresh.exp * SECOND <= w.now
                                then TokenExpired else InvalidToken)
  {
  }

  // ----- tokens that do -----

  /** The owner's row is the one the token was made from, and the account is active. */
  predicate OwnerCurrent(db: Db, t: AccessClaims) {
    && t.sub in db.users && db.users[t.sub].status == Active
    && db.users[t.sub].role == t.role && db.users[t.sub].version == t.av
  }

  predicate SessionAlive(db: Db, now: Instant, sid: SessionId) {
    sid in db.sessions && db.sessions[sid].revokedAt == None && now <= db.sessions[sid].expiresAt
  }

  /** Redis has a version of the user and an unexpired key of the session. */
  predicate Cached(cache: Cache, now: Instant, t: AccessClaims) {
    t.sub in cache.versions && t.sid in cache.keys && now < cache.keys[t.sid].deadline
  }

  lemma ClaimsDecide(cfg: Config, now: Instant, db: Db, cache: Cache, t: AccessClaims)
    requires AccessOk(cfg, db, t) && Vouched(db, cache, t) && VersionKnown(cache, t.sub, db.users[t.sub].version)
    requires KeyLive(cache, now, t.sid) ==> KeyOk(now, db, cache, t.sid)
    ensures ClaimsAnswer(db, cache, now, t) ==
            if !OwnerCurrent(db, t) then Err(InvalidToken)
            else if SessionAlive(db, now, t.sid) || Cached(cache, now, t)
            then Ok(Principal(t.sub, t.sid, t.role, t.av))
            else Err(SessionRevoked)
  {
  }

  /** The whole answer to a signed, unexpired access token, whichever path gives it. */
  lemma ValidateDecides(cfg: Config, w: World, t: AccessClaims)
    requires Reachable(cfg, w) && t in w.hist.issued.access && w.now < t.exp * SECOND
    ensures Answer(w, AccessToken(t)) ==
            if !OwnerCurrent(w.st.db, t) then Err(InvalidToken)
            else if SessionAlive(w.st.db, w.now, t.sid) || Cached(w.st.cache, w.now, t)
            then Ok(Principal(t.sub, t.sid, t.role, t.av))
            else Err(SessionRevoked)
    ensures t.sid in w.st.db.sessions && w.st.db.sessions[t.sid].owner == t.sub
  {
    ReachableHolds(cfg, w);
    var db, cache := w.st.db, w.st.cache;
    assert AccessOk(cfg, db, t) && Vouched(db, cache, t) && VersionKnown(cache, t.sub, db.users[t.sub].version);
    if KeyLive(cache, w.now, t.sid) { assert KeyOk(w.now, db, cache, t.sid); }
    ClaimsDecide(cfg, w.now, db, cache, t);
  }

  lemma CachedIsAlive(cfg: Config, w: World, t: AccessClaims)
    requires Reachable(cfg, w) && Cached(w.st.cache, w.now, t) && !InGrace(w, t.sid)
    ensures SessionAlive(w.st.db, w.now, t.sid)
  {
    ReachableHolds(cfg, w);
    assert KeyOk(w.now, w.st.db, w.st.cache, t.sid);
  }

  /** Exactly which access tokens are accepted, the session's second of grace aside: signed,
      unexpired, with the owner active at the token's role and version, and the session neither
      revoked nor expired. */
  lemma AcceptedExactly(cfg: Config, w: World, t: AccessClaims)
    requires Reachable(cfg, w) && !InGrace(w, t.sid)
    ensures Answer(w, AccessToken(t)) == Ok(Principal(t.sub, t.sid, t.role, t.av)) <==>
              && t in w.hist.issued.access && w.now < t.exp * SECOND
              && OwnerCurrent(w.st.db, t) && SessionAlive(w.st.db, w.now, t.sid)
    ensures Answer(w, AccessToken(t)).Ok? ==> Answer(w, AccessToken(t)) == Ok(Principal(t.sub, t.sid, t.role, t.av))
  {
    UndecodedIsRefused(w, AccessToken(t));
    if t in w.hist.issued.access && w.now < t.exp * SECOND {
      ValidateDecides(cfg, w, t);
      if Cached(w.st.cache, w.now, t) { CachedIsAlive(cfg, w, t); }
    }
  }

  /** With nothing cached the answer is read off whatever rows there are, reachable or not. */
  lemma UncachedDecides(db: Db, issued: Issued, now: Instant, t: AccessClaims)
    requires t in issued.access && now < t.exp * SECOND
    ensures ValidateAnswer(db, EMPTY_CACHE, issued, now, AccessToken(t)) ==
            if t.av < 1 || !OwnerCurrent(db, t) then Err(InvalidToken)
            else if t.sid !in db.sessions then Err(SessionNotFound)
            else if !SessionAlive(db, now, t.sid) then Err(SessionRevoked)
            else if db.sessions[t.sid].owner != t.sub then Err(InvalidToken)
            else Ok(Principal(t.sub, t.sid, t.role, t.av))
  {
  }

  /** Whatever is accepted carries the row's own role and version, and its session is the owner's. */
  lemma AcceptedRows(cfg: Config, w: World, token: Token, p: Principal)
    requires Reachable(cfg, w) && Answer(w, token) == Ok(p)
    ensures token.AccessToken? && token.access in w.hist.issued.access
    ensures p == Principal(token.access.sub, token.access.sid, token.access.role, token.access.av)
    ensures OwnerCurrent(w.st.db, token.access)
    ensures p.session in w.st.db.sessions && w.st.db.sessions[p.session].owner == p.user
  {
    UndecodedIsRefused(w, token);
    ValidateDecides(cfg, w, token.access);
  }

  /** A refresh with anything but a signed refresh token that had not reached its exp second when it
      was decoded changes nothing, and says why. */
  lemma UndecodedIsNotRefreshed(cfg: Config, w: World, op: Op)
    requires op.Refresh?
    ensures var o := RefreshOutcome(cfg, w.st, w.hist.issued, op.seen, w.now, op.signed, op.token, op.newSid);
            match op.token
            case AccessToken(t) =>
              o == Outcome(w.st, Err(if t in w.hist.issued.access && t.exp * SECOND <= op.seen
                                     then TokenExpired else InvalidToken))
            case RefreshToken(c) =>
              && (c !in w.hist.issued.refresh ==> o == Outcome(w.st, Err(InvalidToken)))
              && (c in w.hist.issued.refresh && c.exp * SECOND <= op.seen ==> o == Outcome(w.st, Err(TokenExpired)))
  {
  }
}
