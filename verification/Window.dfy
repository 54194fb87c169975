/** Whether the second of grace can ever be seen: it depends on two settings alone. */
module Window {
  import opened Domain
  import opened AccessStore
  import opened Tables
  import opened LoginStore
  import opened Authentication
  import opened Service
  import opened Coherence
  import opened Reachability
  import opened Guarantees

  // ----- sessions are born with their full life ahead -----

  /** No session has more life ahead than a new one; and when new sessions are born expired,
      none is ever cached. */
  ghost predicate BirthOk(cfg: Config, w: World) {
    && (forall s | s in w.st.db.sessions :: w.st.db.sessions[s].expiresAt <= w.now + cfg.RefreshLifetime())
    && (cfg.RefreshLifetime() < 0 ==> forall s | s in w.st.cache.keys :: false)
  }

  ghost predicate Newborn(cfg: Config, w: World, next: World) {
    forall s | s in next.st.db.sessions && s !in w.st.db.sessions ::
      next.st.db.sessions[s].expiresAt == w.now + cfg.RefreshLifetime()
  }

  lemma VerifyBears(cfg: Config, w: World, op: Op)
    requires op.Verify?
    ensures Newborn(cfg, w, AfterVerify(cfg, w, op))
  {
  }

  lemma ClaimsBear(cfg: Config, st: Stores, now: Instant, signed: Instant, c: RefreshClaims, sid: SessionId)
    ensures forall s | s in RefreshClaimsOutcome(cfg, st, now, signed, c, sid).stores.db.sessions
                       && s !in st.db.sessions ::
        RefreshClaimsOutcome(cfg, st, now, signed, c, sid).stores.db.sessions[s].expiresAt
        == now + cfg.RefreshLifetime()
  {
  }

  lemma RefreshBears(cfg: Config, w: World, op: Op)
    requires op.Refresh?
    ensures Newborn(cfg, w, AfterRefresh(cfg, w, op))
  {
    if op.token.RefreshToken? { ClaimsBear(cfg, w.st, w.now, op.signed, op.token.refresh, op.newSid); }
  }

  lemma RequestBears(cfg: Config, w: World, op: Op)
    requires Authenticated(op)
    ensures Newborn(cfg, w, w.(st := Request(w, op).stores))
  {
  }

  lemma StepBears(cfg: Config, w: World, op: Op)
    ensures Newborn(cfg, w, Apply(cfg, w, op))
  {
    match op
    case Tick(_) => case LoseKey(_) => case Login(_, _, _, _, _, _, _) => case Bootstrap(_, _) =>
    case Verify(_, _, _, _, _, _) => VerifyBears(cfg, w, op);
    case Refresh(_, _, _, _) => RefreshBears(cfg, w, op);
    case _ => RequestBears(cfg, w, op);
  }

  lemma BirthKept(cfg: Config, w: World, next: World)
    requires BirthOk(cfg, w) && Continues(w, next) && Newborn(cfg, w, next)
    ensures BirthOk(cfg, next)
  {
    forall s | s in next.st.db.sessions ensures next.st.db.sessions[s].expiresAt <= next.now + cfg.RefreshLifetime() {
      if s in w.st.db.sessions { assert RowEvolves(w.st.db.sessions[s], next.st.db.sessions[s]); }
    }
  }

  lemma {:induction false} RunKeepsBirth(cfg: Config, w: World, ops: seq<Op>)
    requires BirthOk(cfg, w) && ValidRun(cfg, w, ops)
    ensures BirthOk(cfg, Run(cfg, w, ops))
    decreases |ops|
  {
    if ops != [] {
      StepContinues(cfg, w, ops[0]);
      StepBears(cfg, w, ops[0]);
      BirthKept(cfg, w, Apply(cfg, w, ops[0]));
      RunKeepsBirth(cfg, Apply(cfg, w, ops[0]), ops[1..]);
    }
  }

  // ----- when the window cannot be reached -----

  /** An access token that still decodes belongs to a session with time left. */
  lemma ShortTokensMissTheWindow(cfg: Config, w: World, token: Token)
    requires Inv(cfg, w) && cfg.AccessLifetime() <= cfg.RefreshLifetime()
    requires DecodeAccess(w.hist.issued, token, w.now).Ok?
    ensures !InGrace(w, token.access.sid)
  {
    assert AccessOk(cfg, w.st.db, token.access);
    TimestampBounds(w.st.db.sessions[token.access.sid].expiresAt - cfg.RefreshLifetime() + cfg.AccessLifetime());
  }

  /** Settings under which the cache never changes an answer. */
  predicate WindowClosed(cfg: Config) {
    cfg.AccessLifetime() <= cfg.RefreshLifetime() || cfg.RefreshLifetime() < 0
  }

  lemma ClosedWindowAgrees(cfg: Config, w: World, token: Token)
    requires Reachable(cfg, w) && WindowClosed(cfg)
    ensures Agrees(w, token)
  {
    ReachableHolds(cfg, w);
    CacheDiffersExactly(cfg, w, token);
    if ServesDeadSession(w, token) {
      if cfg.RefreshLifetime() < 0 {
        var ops :| ValidRun(cfg, START, ops) && Run(cfg, START, ops) == w;
        RunKeepsBirth(cfg, START, ops);
      } else {
        ShortTokensMissTheWindow(cfg, w, token);
      }
    }
  }

  // ----- when it can: a run into the window -----

  /** Settings under which someone can log in at all. */
  predicate LoginsPossible(cfg: Config) { cfg.otpMax >= 1 && cfg.otpSeconds >= 0 }

  const HALF_SECOND: nat := 500_000

  function OpenLogin(): Op { Login("a@b.c", "phone", 0, 0, 0, "123456", true) }

  function OpenVerify(cfg: Config): Op {
    Verify("a@b.c", CodeFor(cfg, "123456"), 0, 0, CreationTtl(cfg.otpSeconds * SECOND, 0), 0)
  }

  function OpenToken(cfg: Config): Token { AccessToken(NewAccess(cfg, 0, 0, User, 1, 0)) }

  function LoggedInWorld(cfg: Config): World { Apply(cfg, Apply(cfg, START, OpenLogin()), OpenVerify(cfg)) }

  /** What the login leaves that matters here: one active user, one session, an empty cache. */
  ghost predicate JustLoggedIn(cfg: Config, w: World) {
    && w.now == 0 && w.st.cache.keys == map[] && w.st.cache.versions == map[]
    && w.st.db.users == map[0 := UserRow("a@b.c", User, Active, 1, true)]
    && 0 in w.st.db.sessions
    && w.st.db.sessions[0] == NewSession(cfg, 0, 0, NewRefresh(cfg, 0, 0, 0), 0)
    && OpenToken(cfg).access in w.hist.issued.access
  }

  lemma LoginSucceeds(cfg: Config)
    requires LoginsPossible(cfg)
    ensures Enabled(START, OpenLogin()) && Enabled(Apply(cfg, START, OpenLogin()), OpenVerify(cfg))
    ensures JustLoggedIn(cfg, LoggedInWorld(cfg))
  {
    var w := Apply(cfg, START, OpenLogin());
    assert FindRequest(w.st.logins, 0, 0)
        == Some(LoginRequest(0, 0, Bcrypt(CodeFor(cfg, "123456")), cfg.otpMax, cfg.otpSeconds * SECOND, None));
    assert w.st.db.users == map[0 := UserRow("a@b.c", User, Active, 1, false)];
    assert VerifyGuard(w.st.db, w.st.logins, 0, "a@b.c", 0).None?;
  }

  lemma MinutesApart(a: int, b: int)
    requires a * MINUTE < b * MINUTE
    ensures a * MINUTE + MINUTE <= b * MINUTE
  {
  }

  lemma WholeSecond(k: int)
    ensures Timestamp(k * SECOND) * SECOND == k * SECOND
  {
    TimestampBounds(k * SECOND);
  }

  /** Lifetimes are whole minutes, so the longer of two is longer by a minute at least. */
  lemma AMinuteLonger(cfg: Config)
    requires cfg.RefreshLifetime() < cfg.AccessLifetime()
    ensures cfg.RefreshLifetime() + MINUTE <= cfg.AccessLifetime()
    ensures Timestamp(cfg.AccessLifetime()) * SECOND == cfg.AccessLifetime()
  {
    MinutesApart(cfg.refreshDays * 1440, cfg.accessMinutes);
    WholeSecond(cfg.accessMinutes * 60);
  }

  /** At the last instant of a session the slow path still accepts, and caches it for a second more. */
  lemma LastInstantFills(cfg: Config, w: World)
    requires JustLoggedIn(cfg, w) && 0 <= cfg.RefreshLifetime() < cfg.AccessLifetime()
    ensures var life := cfg.RefreshLifetime();
            var c := OpenToken(cfg).access;
            && !Expired(c.exp, life + HALF_SECOND)
            && ClaimsCache(w.st.db, w.st.cache, life, c) == Filled(w.st.cache, life, 0, 1, 0, life)
            && KeyLive(Filled(w.st.cache, life, 0, 1, 0, life), life + HALF_SECOND, 0)
  {
    AMinuteLonger(cfg);
    assert SlowAnswer(w.st.db, cfg.RefreshLifetime(), OpenToken(cfg).access).Ok?;
    assert TtlSeconds(cfg.RefreshLifetime(), cfg.RefreshLifetime()) == 1;
  }

  /** Half a second later the cache and the database disagree. */
  lemma WindowOpens(cfg: Config, w: World)
    requires JustLoggedIn(cfg, w) && 0 <= cfg.RefreshLifetime() < cfg.AccessLifetime()
    ensures var late := w.(now := cfg.RefreshLifetime());
            !Agrees(Validated(late, OpenToken(cfg)).(now := late.now + HALF_SECOND), OpenToken(cfg))
  {
    var life := cfg.RefreshLifetime();
    var c := OpenToken(cfg).access;
    LastInstantFills(cfg, w);
    var cache := Filled(w.st.cache, life, 0, 1, 0, life);
    assert ValidateCache(w.st.db, w.st.cache, w.hist.issued, life, OpenToken(cfg)) == cache;
    assert ClaimsAnswer(w.st.db, cache, life + HALF_SECOND, c).Ok?;
    assert ClaimsAnswer(w.st.db, EMPTY_CACHE, life + HALF_SECOND, c).Err?;
  }

  lemma LoggedInReachable(cfg: Config)
    requires LoginsPossible(cfg)
    ensures Reachable(cfg, LoggedInWorld(cfg))
  {
    LoginSucceeds(cfg);
    assert ValidRun(cfg, START, []) && Run(cfg, START, []) == START;
    Reaches(cfg, START, OpenLogin());
    Reaches(cfg, Apply(cfg, START, OpenLogin()), OpenVerify(cfg));
  }

  lemma WaitsAndValidates(cfg: Config, w: World, wait: nat, token: Token, more: nat)
    requires Reachable(cfg, w)
    ensures var after := Validated(w.(now := w.now + wait), token);
            Reachable(cfg, after.(now := after.now + more))
  {
    Reaches(cfg, w, Tick(wait));
    Reaches(cfg, w.(now := w.now + wait), Validate(token));
    Reaches(cfg, Validated(w.(now := w.now + wait), token), Tick(more));
  }

  lemma LateValidation(cfg: Config, start: World) returns (w: World)
    requires Reachable(cfg, start) && JustLoggedIn(cfg, start) && 0 <= cfg.RefreshLifetime() < cfg.AccessLifetime()
    ensures Reachable(cfg, w) && !Agrees(w, OpenToken(cfg))
  {
    var late := start.(now := cfg.RefreshLifetime());
    w := Validated(late, OpenToken(cfg)).(now := late.now + HALF_SECOND);
    WindowOpens(cfg, start);
    WaitsAndValidates(cfg, start, cfg.RefreshLifetime(), OpenToken(cfg), HALF_SECOND);
  }

  lemma OpenWindowDisagrees(cfg: Config) returns (w: World)
    requires LoginsPossible(cfg) && !WindowClosed(cfg)
    ensures Reachable(cfg, w) && !Agrees(w, OpenToken(cfg))
  {
    LoginSucceeds(cfg);
    LoggedInReachable(cfg);
    w := LateValidation(cfg, LoggedInWorld(cfg));
  }

  lemma PlainRefusesRevoked(w: World, t: AccessClaims)
    requires IsRevoked(w, t.sid)
    ensures PlainAnswer(w, AccessToken(t)).Err?
  {
    assert Lookup(EMPTY_CACHE, w.now, t.sub, t.sid) == CachedAccessState(None, None);
  }

  /** With the window closed, revocation is final without exception: a revoked session's access
      token is refused in every continuation. */
  lemma RevocationIsAbsolute(cfg: Config, w: World, ops: seq<Op>, t: AccessClaims)
    requires Reachable(cfg, w) && ValidRun(cfg, w, ops) && IsRevoked(w, t.sid) && WindowClosed(cfg)
    ensures Answer(Run(cfg, w, ops), AccessToken(t)).Err?
  {
    RevocationIsFinal(cfg, w, ops, t);
    RunReaches(cfg, w, ops);
    ClosedWindowAgrees(cfg, Run(cfg, w, ops), AccessToken(t));
    PlainRefusesRevoked(Run(cfg, w, ops), t);
  }

  /** Validate with Redis is the same as validate without, in every reachable state and for
      every token, exactly when access tokens live no longer than sessions (or sessions are
      born expired). */
  lemma RefinementIffWindowClosed(cfg: Config)
    requires LoginsPossible(cfg)
    ensures (forall w, token | Reachable(cfg, w) :: Agrees(w, token)) <==> WindowClosed(cfg)
  {
    if WindowClosed(cfg) {
      forall w, token | Reachable(cfg, w) ensures Agrees(w, token) { ClosedWindowAgrees(cfg, w, token); }
    } else {
      var w := OpenWindowDisagrees(cfg);
    }
  }
}
