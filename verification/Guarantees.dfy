/** What the cache may and may not change about validate, and why revocation is final. */
module Guarantees {
  import opened Domain
  import opened AccessStore
  import opened Tables
  import opened Authentication
  import opened Service
  import opened Coherence
  import opened Reachability

  // ----- the cache against the database -----

  /** The answer the database alone would give: validate with an empty Redis. */
  function PlainAnswer(w: World, token: Token): Result<Principal> {
    ValidateAnswer(w.st.db, EMPTY_CACHE, w.hist.issued, w.now, token)
  }

  ghost predicate Agrees(w: World, token: Token) {
    Answer(w, token) == PlainAnswer(w, token)
  }

  /** The second of grace a key may outlive its session by. */
  predicate InGrace(w: World, sid: SessionId) {
    sid in w.st.db.sessions
    && w.st.db.sessions[sid].expiresAt <= w.now < w.st.db.sessions[sid].expiresAt + SECOND
  }

  /** The fast path hits, on a session the database would refuse. */
  predicate FastDead(db: Db, cache: Cache, now: Instant, c: AccessClaims) {
    && FastAccept(Lookup(cache, now, c.sub, c.sid), c) && c.sid in db.sessions
    && (db.sessions[c.sid].revokedAt.Some? || db.sessions[c.sid].expiresAt < now)
  }

  predicate ServesDeadSession(w: World, token: Token) {
    DecodeAccess(w.hist.issued, token, w.now).Ok? && FastDead(w.st.db, w.st.cache, w.now, token.access)
  }

  lemma ClaimsDifferExactly(cfg: Config, now: Instant, db: Db, cache: Cache, c: AccessClaims)
    requires AccessOk(cfg, db, c) && Vouched(db, cache, c) && VersionKnown(cache, c.sub, db.users[c.sub].version)
    requires KeyLive(cache, now, c.sid) ==> KeyOk(now, db, cache, c.sid)
    ensures ClaimsAnswer(db, cache, now, c) == ClaimsAnswer(db, EMPTY_CACHE, now, c) <==> !FastDead(db, cache, now, c)
    ensures FastDead(db, cache, now, c) ==>
      db.sessions[c.sid].expiresAt <= now < db.sessions[c.sid].expiresAt + SECOND
  {
    assert Lookup(EMPTY_CACHE, now, c.sub, c.sid) == CachedAccessState(None, None);
  }

  /** Exactly when the cache changes the answer; and that this needs the second of grace. */
  lemma CacheDiffersExactly(cfg: Config, w: World, token: Token)
    requires Reachable(cfg, w)
    ensures Agrees(w, token) <==> !ServesDeadSession(w, token)
    ensures ServesDeadSession(w, token) ==> InGrace(w, token.access.sid)
  {
    ReachableHolds(cfg, w);
    if DecodeAccess(w.hist.issued, token, w.now).Ok? {
      var c, db, cache := token.access, w.st.db, w.st.cache;
      assert AccessOk(cfg, db, c) && Vouched(db, cache, c) && VersionKnown(cache, c.sub, db.users[c.sub].version);
      if KeyLive(cache, w.now, c.sid) { assert KeyOk(w.now, db, cache, c.sid); }
      ClaimsDifferExactly(cfg, w.now, db, cache, c);
    }
  }

  /** Cache refinement: in every reachable state and for every token, validate answers as it
      would with an empty Redis, unless the token's session is in its second of grace. */
  lemma CacheRefinesDatabase(cfg: Config, w: World, token: Token)
    requires Reachable(cfg, w)
    requires token.AccessToken? ==> !InGrace(w, token.access.sid)
    ensures Answer(w, token) == PlainAnswer(w, token)
  {
    CacheDiffersExactly(cfg, w, token);
  }

  // ----- what every step keeps about sessions, tokens and keys -----

  lemma EvolvesThrough(a: map<SessionId, SessionRow>, b: map<SessionId, SessionRow>, c: map<SessionId, SessionRow>)
    requires Evolves(a, b) && Evolves(b, c)
    ensures Evolves(a, c)
  {
  }

  /** revoked_at is written once, tokens stay signed, and a session key appears only for a
      session that is neither revoked nor expired. */
  ghost predicate Continues(w: World, next: World) {
    && w.now <= next.now
    && Evolves(w.st.db.sessions, next.st.db.sessions)
    && w.hist.issued.access <= next.hist.issued.access
    && w.hist.issued.refresh <= next.hist.issued.refresh
    && (forall s | s in next.st.cache.keys && s !in w.st.cache.keys ::
          s in w.st.db.sessions && w.st.db.sessions[s].revokedAt.None? && w.now <= w.st.db.sessions[s].expiresAt)
  }

  lemma UseContinues(st: Stores, now: Instant, p: Principal, op: Op)
    ensures var after := Use(st, now, p, op).stores;
            Evolves(st.db.sessions, after.db.sessions) && after.cache.keys.Keys <= st.cache.keys.Keys
  {
    UseRevokes(st, now, p, op);
  }

  lemma RequestContinues(w: World, op: Op)
    requires Authenticated(op)
    ensures Continues(w, w.(st := Request(w, op).stores))
  {
    var p, v := Admit(w, op.token, AllowedFor(op)), Validated(w, op.token);
    if p.Ok? { UseContinues(v.st, w.now, p.value, op); }
  }

  lemma RotationContinues(cfg: Config, db: Db, now: Instant, signed: Instant, c: RefreshClaims, sid: SessionId)
    requires sid !in db.sessions && c.jti in db.sessions
    ensures Evolves(db.sessions, Rotated(cfg, db, now, signed, c, sid).sessions)
  {
    ByIdOnlyRevokes(db, c.jti, now);
  }

  lemma RefreshClaimsContinue(cfg: Config, st: Stores, now: Instant, signed: Instant, c: RefreshClaims, sid: SessionId)
    requires sid !in st.db.sessions
    ensures var after := RefreshClaimsOutcome(cfg, st, now, signed, c, sid).stores;
            Evolves(st.db.sessions, after.db.sessions) && after.cache.keys.Keys <= st.cache.keys.Keys
  {
    ByIdOnlyRevokes(st.db, c.jti, now);
    ForUserOnlyRevokes(st.db, c.sub, now);
    if c.jti in st.db.sessions { RotationContinues(cfg, st.db, now, signed, c, sid); }
  }

  lemma RefreshContinues(cfg: Config, w: World, op: Op)
    requires Enabled(w, op) && op.Refresh?
    ensures Continues(w, AfterRefresh(cfg, w, op))
  {
    if op.token.RefreshToken? { RefreshClaimsContinue(cfg, w.st, w.now, op.signed, op.token.refresh, op.newSid); }
  }

  lemma VerifyContinues(cfg: Config, w: World, op: Op)
    requires Enabled(w, op) && op.Verify?
    ensures Continues(w, AfterVerify(cfg, w, op))
  {
  }

  lemma QuietContinues(cfg: Config, w: World, op: Op)
    requires Enabled(w, op) && (op.Tick? || op.LoseKey? || op.Login? || op.Bootstrap?)
    ensures Continues(w, Apply(cfg, w, op))
  {
  }

  lemma StepContinues(cfg: Config, w: World, op: Op)
    requires Enabled(w, op)
    ensures Continues(w, Apply(cfg, w, op))
  {
    match op
    case Tick(_) => QuietContinues(cfg, w, op);
    case LoseKey(_) => QuietContinues(cfg, w, op);
    case Login(_, _, _, _, _, _, _) => QuietContinues(cfg, w, op);
    case Bootstrap(_, _) => QuietContinues(cfg, w, op);
    case Verify(_, _, _, _, _, _) => VerifyContinues(cfg, w, op);
    case Refresh(_, _, _, _) => RefreshContinues(cfg, w, op);
    case _ => RequestContinues(w, op);
  }

  lemma {:induction false} RunContinues(cfg: Config, w: World, ops: seq<Op>)
    requires ValidRun(cfg, w, ops)
    ensures var last := Run(cfg, w, ops);
            && w.now <= last.now
            && Evolves(w.st.db.sessions, last.st.db.sessions)
            && w.hist.issued.access <= last.hist.issued.access
    decreases |ops|
  {
    if ops != [] {
      var next := Apply(cfg, w, ops[0]);
      StepContinues(cfg, w, ops[0]);
      RunContinues(cfg, next, ops[1..]);
      EvolvesThrough(w.st.db.sessions, next.st.db.sessions, Run(cfg, next, ops[1..]).st.db.sessions);
    }
  }

  // ----- revocation is final -----

  ghost predicate IsRevoked(w: World, sid: SessionId) {
    sid in w.st.db.sessions && w.st.db.sessions[sid].revokedAt.Some?
  }

  /** Once a session is revoked, revoked_at keeps its value and the session's access token is
      refused in every continuation, the second of grace aside. */
  lemma RevocationIsFinal(cfg: Config, w: World, ops: seq<Op>, t: AccessClaims)
    requires Reachable(cfg, w) && ValidRun(cfg, w, ops)
    requires IsRevoked(w, t.sid)
    ensures var last := Run(cfg, w, ops);
            && IsRevoked(last, t.sid)
            && last.st.db.sessions[t.sid].revokedAt == w.st.db.sessions[t.sid].revokedAt
            && (!InGrace(last, t.sid) ==> Answer(last, AccessToken(t)).Err?)
  {
    RunReaches(cfg, w, ops);
    RunContinues(cfg, w, ops);
    CacheDiffersExactly(cfg, Run(cfg, w, ops), AccessToken(t));
  }

  /** Revoked, and Redis holds no key for it. */
  ghost predicate Buried(w: World, sid: SessionId) {
    IsRevoked(w, sid) && sid !in w.st.cache.keys
  }

  lemma {:induction false} BuriedIsRefused(cfg: Config, w: World, ops: seq<Op>, t: AccessClaims)
    requires ValidRun(cfg, w, ops) && Buried(w, t.sid)
    ensures Buried(Run(cfg, w, ops), t.sid) && Answer(Run(cfg, w, ops), AccessToken(t)).Err?
    decreases |ops|
  {
    if ops != [] {
      StepContinues(cfg, w, ops[0]);
      BuriedIsRefused(cfg, Apply(cfg, w, ops[0]), ops[1..], t);
    }
  }

  lemma SingleRevocationBuries(cfg: Config, w: World, op: Op)
    requires Inv(cfg, w) && (op.Logout? || op.RevokeSession?) && Request(w, op).result.Ok?
    ensures Buried(w.(st := Request(w, op).stores), if op.Logout? then op.token.access.sid else op.sid)
  {
    assert AccessOk(cfg, w.st.db, op.token.access);
  }

  /** Logging out and revoking one session delete the key directly, so from then on the access
      token is refused without exception. */
  lemma SingleRevocationIsFinal(cfg: Config, w: World, op: Op, ops: seq<Op>, t: AccessClaims)
    requires Reachable(cfg, w) && ValidRun(cfg, Apply(cfg, w, op), ops)
    requires (op.Logout? || op.RevokeSession?) && Request(w, op).result.Ok?
    requires t.sid == if op.Logout? then op.token.access.sid else op.sid
    ensures Answer(Run(cfg, Apply(cfg, w, op), ops), AccessToken(t)).Err?
  {
    ReachableHolds(cfg, w);
    SingleRevocationBuries(cfg, w, op);
    BuriedIsRefused(cfg, Apply(cfg, w, op), ops, t);
  }

  // ----- sweeping -----

  /** Every key belongs to its session's owner and dies at most a second after the session; while
      the session lasts, the key stands for an unrevoked session and is listed in the owner's
      sorted set. The sorted set of a user lists only that user's sessions, by their expiry. */
  lemma KeysAreIndexed(cfg: Config, w: World, sid: SessionId, u: UserId)
    requires Reachable(cfg, w)
    ensures sid in w.st.cache.keys ==>
              var key := w.st.cache.keys[sid];
              && sid in w.st.db.sessions && w.st.db.sessions[sid].owner == key.owner
              && key.deadline <= w.st.db.sessions[sid].expiresAt + SECOND
              && (w.now < w.st.db.sessions[sid].expiresAt ==>
                    w.st.db.sessions[sid].revokedAt.None? && sid in Members(w.st.cache, key.owner))
    ensures sid in Members(w.st.cache, u) ==>
              sid in w.st.db.sessions && w.st.db.sessions[sid].owner == u
              && Members(w.st.cache, u)[sid] == w.st.db.sessions[sid].expiresAt
  {
    ReachableHolds(cfg, w);
    if sid in w.st.cache.keys { assert KeyOk(w.now, w.st.db, w.st.cache, sid); }
  }

  /** A validation that fills the cache sets a key that outlives the session only when less than a
      second was left, and then by no more than a second. */
  lemma FilledKeyDeadline(cfg: Config, w: World, token: Token)
    requires Reachable(cfg, w) && DecodeAccess(w.hist.issued, token, w.now).Ok?
    requires Fills(w.st.db, w.st.cache, w.now, token.access)
    ensures var sid, keys := token.access.sid, Validated(w, token).st.cache.keys;
            && sid in w.st.db.sessions && sid in keys
            && var expiresAt := w.st.db.sessions[sid].expiresAt;
               && w.now < keys[sid].deadline <= expiresAt + SECOND
               && (keys[sid].deadline > expiresAt <==> expiresAt - w.now < SECOND)
  {
    DeadlineBound(w.st.db.sessions[token.access.sid].expiresAt, w.now);
  }

  /** A sweep removes every key of the user whose session has not expired, and no key of
      anyone else. */
  lemma SweepIsExact(cfg: Config, w: World, u: UserId, sid: SessionId)
    requires Reachable(cfg, w) && sid in w.st.cache.keys
    ensures sid in w.st.db.sessions
    ensures w.st.cache.keys[sid].owner == u && w.now < w.st.db.sessions[sid].expiresAt ==>
        sid !in Swept(w.st.cache, u).keys
    ensures w.st.cache.keys[sid].owner != u ==> sid in Swept(w.st.cache, u).keys
  {
    ReachableHolds(cfg, w);
    assert KeyOk(w.now, w.st.db, w.st.cache, sid);
  }
}
