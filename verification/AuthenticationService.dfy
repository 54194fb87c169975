/** The authentication use cases as they run: ordered calls on the database and on Redis, any
    of which may raise, inside a try block that ends in a commit or a rollback. */
module AuthenticationService {
  import opened Domain
  import opened AccessStore
  import opened Tables
  import opened LoginStore
  import opened Authentication

  function View(db: Database, cache: RedisAccessStateStore): Stores
    reads db, cache
  {
    Stores(db.committed, cache.Contents(), EMPTY_LOGINS)
  }

  /** What a validation that raised may leave: the cache as it was, with the version published, or
      filled altogether; the latter two only for a token that would have been accepted. */
  ghost predicate FillCutShort(db: Db, before: Cache, after: Cache, now: Instant, token: Token) {
    || after == before
    || (&& token.AccessToken? && Fills(db, before, now, token.access)
        && after in {Published(before, token.access.sub, token.access.av), ClaimsCache(db, before, now, token.access)})
  }

  /** validate_access_token.py. An exception can only turn an acceptance into a failure. */
  method ValidateAccessToken(db: Database, cache: RedisAccessStateStore, issued: Issued, now: Instant, token: Token,
                             faults: seq<Fault>)
    returns (r: Result<Principal>)
    modifies cache
    ensures r in {ValidateAnswer(db.working, old(cache.Contents()), issued, now, token), Err(DependencyFailure)}
    ensures r != Err(DependencyFailure) ==>
        cache.Contents() == ValidateCache(db.working, old(cache.Contents()), issued, now, token)
    ensures r == Err(DependencyFailure) ==>
      FillCutShort(db.working, old(cache.Contents()), cache.Contents(), now, token)
    ensures Quiet(faults) ==> r == ValidateAnswer(db.working, old(cache.Contents()), issued, now, token)
  {
    var claims := DecodeAccess(issued, token, now);
    if claims.Err? { return Err(claims.error); }
    var c := claims.value;

    var ok, cached := cache.Get(c.sub, c.sid, now, FaultAt(faults, 0));
    if !ok { return Err(DependencyFailure); }
    if cached.version.Some? && cached.version.value != c.av { return Err(InvalidToken); }
    if cached.active == Some(false) { return Err(InvalidToken); }
    if cached.version.Some? && cached.active == Some(true) { return Ok(PrincipalOf(c)); }

    var user, session;
    ok, user := db.GetUser(c.sub, FaultAt(faults, 1));
    if !ok { return Err(DependencyFailure); }
    if user.None? || !user.value.status.Active? { return Err(InvalidToken); }
    if user.value.role != c.role || user.value.version != c.av { return Err(InvalidToken); }

    ok, session := db.GetSession(c.sid, FaultAt(faults, 2));
    if !ok { return Err(DependencyFailure); }
    if session.None? { return Err(SessionNotFound); }
    if session.value.revokedAt.Some? || session.value.expiresAt < now { return Err(SessionRevoked); }
    if session.value.owner != c.sub { return Err(InvalidToken); }

    ok := cache.CacheSession(c.sub, c.av, c.sid, session.value.expiresAt, now, FaultAt(faults, 3), FaultAt(faults, 4));
    if !ok { return Err(DependencyFailure); }
    r := Ok(PrincipalOf(c));
  }

  // ----- refresh_token.py -----

  /** Revoke every session of a user and commit. */
  method RevokeEverythingAndCommit(db: Database, cache: RedisAccessStateStore, u: UserId, now: Instant,
                                   sqlFault: Fault, readFault: Fault, pipeFault: Fault, commitFault: Fault)
    returns (ok: bool)
    requires db.working == db.committed
    modifies db, cache
    ensures db.rollbacks == old(db.rollbacks) && db.commits == old(db.commits) + if ok then 1 else 0
    ensures db.committed == old(db.committed) || db.committed == RevokedForUser(old(db.committed), u, now)
    ensures ok ==> View(db, cache) == RevokeEverything(old(View(db, cache)), u, now) && db.working == db.committed
    ensures db.committed != old(db.committed) ==> cache.Contents() == Swept(old(cache.Contents()), u)
    ensures sqlFault.Silent? && readFault.Silent? && pipeFault.Silent? && commitFault.Silent? ==> ok
  {
    ok := db.RevokeAllActiveForUser(u, now, sqlFault);
    if !ok { return; }
    ok := cache.RevokeAllSessions(u, readFault, pipeFault);
    if !ok { return; }
    ok := db.Commit(commitFault);
  }

  /** What a refresh can commit: nothing, this session's revocation, the revocation of all the
      user's sessions, or one rotation. */
  ghost predicate RefreshEffect(cfg: Config, before: Db, after: Db, now: Instant, signed: Instant, c: RefreshClaims,
                                newSid: SessionId) {
    || after == before
    || after == RevokedById(before, c.jti, now)
    || after == RevokedForUser(before, c.sub, now)
    || (OwnedAndActive(before, c.jti, c.sub) && after == Rotated(cfg, before, now, signed, c, newSid))
  }

  /** By the time an effect is committed, Redis has lost the session's key or all the user's. */
  ghost predicate CacheFirst(before: Db, after: Db, cache: Cache, left: Cache, now: Instant, c: RefreshClaims) {
    after != before ==>
      || left == Dropped(cache, c.sub, c.jti)
      || (left == Swept(cache, c.sub) && after == RevokedForUser(before, c.sub, now))
  }

  method RotateAndCommit(cfg: Config, db: Database, cache: RedisAccessStateStore, now: Instant, signed: Instant,
                         c: RefreshClaims,
                         session: SessionRow, newSid: SessionId, faults: seq<Fault>)
    returns (r: Result<TokenPair>)
    requires db.working == db.committed && OwnedAndActive(db.working, c.jti, c.sub)
        && session == db.working.sessions[c.jti]
    modifies db, cache
    ensures db.rollbacks == old(db.rollbacks) && db.commits == old(db.commits) + if r.Ok? then 1 else 0
    ensures db.committed == old(db.committed) || db.committed == Rotated(cfg, old(db.committed), now, signed, c, newSid)
    ensures db.committed != old(db.committed) ==> cache.Contents() == Dropped(old(cache.Contents()), c.sub, c.jti)
    ensures r.Ok? ==> db.committed == db.working == Rotated(cfg, old(db.committed), now, signed, c, newSid)
    ensures Quiet(faults) ==>
      var user := FindUser(old(db.committed), c.sub);
      && cache.Contents() == Dropped(old(cache.Contents()), c.sub, c.jti)
      && r == if user.None? || !user.value.status.Active? then Err(InvalidRefreshToken)
              else Ok(TokenPair(NewAccess(cfg, c.sub, newSid, user.value.role, user.value.version, now),
                                NewRefresh(cfg, c.sub, newSid, signed)))
    ensures Quiet(faults) && r.Err? ==> db.committed == old(db.committed)
  {
    r := Err(DependencyFailure);
    var ok := db.RevokeSessionById(c.jti, now, FaultAt(faults, 2));
    if !ok { return; }
    ok := cache.RevokeSession(c.sub, c.jti, FaultAt(faults, 3));
    if !ok { return; }
    var user;
    ok, user := db.GetUser(c.sub, FaultAt(faults, 4));
    if !ok { return; }
    if user.None? || !user.value.status.Active? { return Err(InvalidRefreshToken); }
    var refresh := NewRefresh(cfg, c.sub, newSid, signed);
    ok := db.CreateSession(newSid, NewSession(cfg, c.sub, session.device, refresh, now), FaultAt(faults, 5));
    if !ok { return; }
    var access := NewAccess(cfg, c.sub, newSid, user.value.role, user.value.version, now);
    ok := db.Commit(FaultAt(faults, 6));
    if !ok { return; }
    r := Ok(TokenPair(access, refresh));
  }

  /** The try block. */
  method RefreshBody(cfg: Config, db: Database, cache: RedisAccessStateStore, now: Instant, signed: Instant,
                     c: RefreshClaims,
                     newSid: SessionId, faults: seq<Fault>)
    returns (r: Result<TokenPair>, committedBeforeError: bool)
    requires db.working == db.committed
    modifies db, cache
    ensures db.rollbacks == old(db.rollbacks)
    ensures r.Err? ==> (committedBeforeError <==> db.commits == old(db.commits) + 1)
    ensures r.Err? && !committedBeforeError ==> db.commits == old(db.commits)
    ensures r.Ok? || committedBeforeError ==> db.working == db.committed && db.commits == old(db.commits) + 1
    ensures RefreshEffect(cfg, old(db.committed), db.committed, now, signed, c, newSid)
    ensures CacheFirst(old(db.committed), db.committed, old(cache.Contents()), cache.Contents(), now, c)
    ensures r.Ok? ==>
      OwnedAndActive(old(db.committed), c.jti, c.sub)
        && db.committed == Rotated(cfg, old(db.committed), now, signed, c, newSid)
    ensures Quiet(faults) ==>
      RefreshClaimsOutcome(cfg, old(View(db, cache)), now, signed, c, newSid) == Outcome(View(db, cache), r)
  {
    r, committedBeforeError := Err(DependencyFailure), false;
    if !FaultAt(faults, 0).Silent? { return; } // the advisory lock changes no data
    var ok, session := db.GetSessionForUpdate(c.jti, FaultAt(faults, 1));
    if !ok { return; }
    if session.None? {
      if !Expired(c.exp, now) {
        committedBeforeError := RevokeEverythingAndCommit(db, cache, c.sub, now, FaultAt(faults, 2), FaultAt(faults, 3),
                                                          FaultAt(faults, 4), FaultAt(faults, 5));
        if !committedBeforeError { return; }
      }
      r := Err(InvalidRefreshToken);
    } else if session.value.owner != c.sub {
      committedBeforeError := RevokeEverythingAndCommit(db, cache, c.sub, now, FaultAt(faults, 2), FaultAt(faults, 3),
                                                        FaultAt(faults, 4), FaultAt(faults, 5));
      if !committedBeforeError { return; }
      r := Err(InvalidRefreshToken);
    } else if session.value.expiresAt < now {
      ok := db.RevokeSessionById(c.jti, now, FaultAt(faults, 2));
      if !ok { return; }
      ok := cache.RevokeSession(c.sub, c.jti, FaultAt(faults, 3));
      if !ok { return; }
      committedBeforeError := db.Commit(FaultAt(faults, 4));
      if !committedBeforeError { return; }
      r := Err(TokenExpired);
    } else if session.value.digest != Sha256(c) {
      committedBeforeError := RevokeEverythingAndCommit(db, cache, session.value.owner, now, FaultAt(faults, 2),
                                                        FaultAt(faults, 3), FaultAt(faults, 4), FaultAt(faults, 5));
      if !committedBeforeError { return; }
      r := Err(InvalidRefreshToken);
    } else {
      r := RotateAndCommit(cfg, db, cache, now, signed, c, session.value, newSid, faults);
    }
  }

  /** All or nothing: whatever raises, the committed effect is one of the four above; a pair of
      tokens is handed out only for a committed rotation; and no rollback follows a commit that
      returned. */
  method Refresh(cfg: Config, db: Database, cache: RedisAccessStateStore, issued: Issued, seen: Instant, now: Instant,
                 signed: Instant, token: Token, newSid: SessionId, faults: seq<Fault>)
    returns (r: Result<TokenPair>)
    requires db.working == db.committed
    modifies db, cache
    ensures db.working == db.committed
    ensures token.RefreshToken? ==>
        RefreshEffect(cfg, old(db.committed), db.committed, now, signed, token.refresh, newSid)
    ensures token.RefreshToken? ==>
      CacheFirst(old(db.committed), db.committed, old(cache.Contents()), cache.Contents(), now, token.refresh)
    ensures token.AccessToken? ==> db.committed == old(db.committed)
    ensures r.Ok? ==> token.RefreshToken? && OwnedAndActive(old(db.committed), token.refresh.jti, token.refresh.sub)
                      && db.committed == Rotated(cfg, old(db.committed), now, signed, token.refresh, newSid)
    ensures db.commits > old(db.commits) ==> db.rollbacks == old(db.rollbacks) && db.commits == old(db.commits) + 1
    ensures Quiet(faults) ==>
      RefreshOutcome(cfg, old(View(db, cache)), issued, seen, now, signed, token, newSid) == Outcome(View(db, cache), r)
  {
    var claims := DecodeRefresh(issued, token, seen);
    if claims.Err? { return Err(claims.error); }
    var committedBeforeError;
    r, committedBeforeError := RefreshBody(cfg, db, cache, now, signed, claims.value, newSid, faults);
    if r.Err? && !committedBeforeError { db.Rollback(); }
  }

  // ----- verify_email.py -----

  function FullView(db: Database, cache: RedisAccessStateStore, logins: RedisLoginRequestStore): Stores
    reads db, cache, logins
  {
    Stores(db.committed, cache.Contents(), logins.Contents())
  }

  /** A wrong code costs an attempt. */
  method CountWrongCode(db: Database, logins: RedisLoginRequestStore, request: LoginRequest, id: RequestId,
                        now: Instant, ttl: int, patchFault: Fault, commitFault: Fault)
    returns (error: Error)
    requires db.working == db.committed
    modifies db, logins
    ensures db.committed == old(db.committed)
    ensures patchFault.Silent? ==>
      logins.Contents() == WithAttempts(old(logins.Contents()), now, id, request.attemptsLeft - 1, ttl)
    ensures patchFault.Silent? && commitFault.Silent? ==>
      error == if request.attemptsLeft - 1 <= 0 then TooManyAttempts else InvalidOtp(request.attemptsLeft - 1)
  {
    error := DependencyFailure;
    var newLeft := request.attemptsLeft - 1;
    var ok := logins.PatchAttempts(id, newLeft, now, ttl, patchFault);
    if !ok { return; }
    ok := db.Commit(commitFault);
    if !ok { return; }
    error := if newLeft <= 0 then TooManyAttempts else InvalidOtp(newLeft);
  }

  /** A right code consumes the request and opens the session. */
  method OpenSession(cfg: Config, db: Database, cache: RedisAccessStateStore, logins: RedisLoginRequestStore,
                     request: LoginRequest, user: UserRow, id: RequestId, now: Instant, signed: Instant,
                     newSid: SessionId, ttl: int, faults: seq<Fault>)
    returns (r: Result<TokenPair>)
    requires db.working == db.committed && FindUser(db.working, request.user) == Some(user)
    modifies db, cache, logins
    ensures db.committed == old(db.committed)
            || db.committed == LoggedIn(cfg, old(db.committed), now, signed, request.user, request.device, newSid)
    ensures db.committed != old(db.committed) ==>
      && cache.Contents() == Swept(old(cache.Contents()), request.user)
      && logins.Contents() == WithConsumed(old(logins.Contents()), now, id, now, ttl)
    ensures r.Ok? ==>
      db.committed == db.working == LoggedIn(cfg, old(db.committed), now, signed, request.user, request.device, newSid)
    ensures r.Ok? ==> r == Ok(TokenPair(NewAccess(cfg, request.user, newSid, user.role, user.version, now),
                                        NewRefresh(cfg, request.user, newSid, signed)))
    ensures Quiet(faults) ==>
      && r.Ok?
      && cache.Contents() == Swept(old(cache.Contents()), request.user)
      && logins.Contents() == WithConsumed(old(logins.Contents()), now, id, now, ttl)
  {
    r := Err(DependencyFailure);
    var u, d := request.user, request.device;
    var ok := logins.PatchConsumed(id, now, now, ttl, FaultAt(faults, 2));
    if !ok { return; }
    if !user.verified {
      ok := db.SetVerified(u, FaultAt(faults, 3));
      if !ok { return; }
    }
    assert db.working == WithVerified(old(db.committed), u) by {
      if user.verified { assert old(db.committed.users)[u := user] == old(db.committed.users); }
    }
    ok := db.RevokeActiveForDevice(u, d, now, FaultAt(faults, 4));
    if !ok { return; }
    ok := cache.RevokeAllSessions(u, FaultAt(faults, 5), FaultAt(faults, 6));
    if !ok { return; }
    var refresh := NewRefresh(cfg, u, newSid, signed);
    ok := db.CreateSession(newSid, NewSession(cfg, u, d, refresh, now), FaultAt(faults, 7));
    if !ok { return; }
    var access := NewAccess(cfg, u, newSid, user.role, user.version, now);
    ok := db.Commit(FaultAt(faults, 8));
    if !ok { return; }
    r := Ok(TokenPair(access, refresh));
  }

  method VerifyBody(cfg: Config, db: Database, cache: RedisAccessStateStore, logins: RedisLoginRequestStore,
                    now: Instant, signed: Instant, email: string, code: string, id: RequestId, newSid: SessionId,
                    ttl: int, faults: seq<Fault>)
    returns (r: Result<TokenPair>)
    requires db.working == db.committed
    modifies db, cache, logins
    ensures db.committed == old(db.committed)
            || (&& FindRequest(old(logins.Contents()), now, id).Some?
                && var request := FindRequest(old(logins.Contents()), now, id).value;
                   && db.committed == LoggedIn(cfg, old(db.committed), now, signed, request.user, request.device,
                     newSid)
                   && cache.Contents() == Swept(old(cache.Contents()), request.user)
                   && logins.Contents() == WithConsumed(old(logins.Contents()), now, id, now, ttl))
    ensures r.Ok? ==> db.working == db.committed
    ensures r.Ok? ==>
      var o := VerifyOutcome(cfg, old(FullView(db, cache, logins)), now, signed, email, code, id, newSid, ttl);
      o.result == r && o.stores.db == db.committed
    ensures Quiet(faults) ==>
      VerifyOutcome(cfg, old(FullView(db, cache, logins)), now, signed, email, code, id, newSid, ttl)
      == Outcome(FullView(db, cache, logins), r)
  {
    r := Err(DependencyFailure);
    var ok, found := logins.GetLoginRequest(id, now, FaultAt(faults, 0));
    if !ok { return; }
    if found.None? { return Err(InvalidLoginRequest); }
    var request := found.value;
    var user;
    ok, user := db.GetUser(request.user, FaultAt(faults, 1));
    if !ok { return; }
    if user.None? || user.value.email != email { return Err(InvalidCredentials(request.attemptsLeft)); }
    if request.consumedAt.Some? { return Err(LoginRequestAlreadyUsed(request.attemptsLeft)); }
    if request.expiresAt < now { return Err(OtpExpired); }
    if request.attemptsLeft <= 0 { return Err(TooManyAttempts); }
    var otpOk := false;
    if cfg.devOtp.Some? && |code| == |cfg.devOtp.value| {
      otpOk := code == cfg.devOtp.value;
    }
    if !otpOk {
      otpOk := Bcrypt(code) == request.otp;
    }
    if !otpOk {
      var error := CountWrongCode(db, logins, request, id, now, ttl, FaultAt(faults, 2), FaultAt(faults, 3));
      return Err(error);
    }
    r := OpenSession(cfg, db, cache, logins, request, user.value, id, now, signed, newSid, ttl, faults);
  }

  /** All or nothing: whatever raises, either nothing is committed or the whole login is. */
  method VerifyEmail(cfg: Config, db: Database, cache: RedisAccessStateStore, logins: RedisLoginRequestStore,
                     now: Instant, signed: Instant, email: string, code: string, id: RequestId, newSid: SessionId,
                     ttl: int, faults: seq<Fault>)
    returns (r: Result<TokenPair>)
    requires db.working == db.committed
    modifies db, cache, logins
    ensures db.working == db.committed
    ensures db.committed == old(db.committed)
            || (&& FindRequest(old(logins.Contents()), now, id).Some?
                && var request := FindRequest(old(logins.Contents()), now, id).value;
                   && db.committed == LoggedIn(cfg, old(db.committed), now, signed, request.user, request.device,
                     newSid)
                   && cache.Contents() == Swept(old(cache.Contents()), request.user)
                   && logins.Contents() == WithConsumed(old(logins.Contents()), now, id, now, ttl))
    ensures r.Ok? ==>
      var o := VerifyOutcome(cfg, old(FullView(db, cache, logins)), now, signed, email, code, id, newSid, ttl);
      o.result == r && o.stores.db == db.committed
    ensures Quiet(faults) ==>
      VerifyOutcome(cfg, old(FullView(db, cache, logins)), now, signed, email, code, id, newSid, ttl)
      == Outcome(FullView(db, cache, logins), r)
  {
    r := VerifyBody(cfg, db, cache, logins, now, signed, email, code, id, newSid, ttl, faults);
    if r.Err? { db.Rollback(); }
  }

  // ----- login_user.py -----

  /** Where one-time codes are sent from. */
  class Mailer {
    var outbox: seq<Mail>

    constructor ()
      ensures outbox == []
    {
      outbox := [];
    }

    method SendOtpCode(to: string, code: string, fault: Fault) returns (ok: bool)
      modifies this
      ensures ok == fault.Silent?
      ensures outbox == old(outbox) + if fault.Before? then [] else [Mail(to, code)]
    {
      ok := fault.Silent?;
      if !fault.Before? { outbox := outbox + [Mail(to, code)]; }
    }
  }

  /** The position of the mailer among the awaited calls of a login. */
  const MAILER: nat := 6

  /** The requests waiting on the device the login is for. */
  function Waiting(db: Db, logins: Logins, now: Instant, email: string, client: string, newUser: UserId,
                   newDevice: DeviceId): set<RequestId> {
    var u := UserFor(db, email, newUser);
    PendingIds(logins, now, u, DeviceFor(WithUser(db, email, newUser), u, client, newDevice))
  }

  /** The login got as far as naming its request: user and device were written and the waiting
      requests deleted. With nothing waiting, the call that deletes them is not made. */
  predicate Named(faults: seq<Fault>, waiting: set<RequestId>) {
    && FaultAt(faults, 0).Silent? && FaultAt(faults, 1).Silent? && FaultAt(faults, 2).Silent?
    && (waiting != {} ==> FaultAt(faults, 3).Silent?)
    && FaultAt(faults, 4).Silent?
  }

  /** The mails of a login: none, or the one with its code. */
  function Mailed(cfg: Config, email: string, generated: string, faults: seq<Fault>, waiting: set<RequestId>): seq<Mail>
  {
    if Named(faults, waiting) && FaultAt(faults, 5).Silent? && !FaultAt(faults, MAILER).Before?
    then [Mail(email, CodeFor(cfg, generated))] else []
  }

  /** The last mail went to the address and carries the code the request was stored with. */
  ghost predicate CodeWentOut(outbox: seq<Mail>, logins: Logins, id: RequestId, email: string) {
    && outbox != [] && outbox[|outbox| - 1].to == email
    && id in logins.requests && logins.requests[id].request.otp == Bcrypt(outbox[|outbox| - 1].code)
  }

  /** The request was stored and the code sent, and the commit took effect. */
  predicate LoginCommits(faults: seq<Fault>, waiting: set<RequestId>) {
    Named(faults, waiting) && FaultAt(faults, 5).Silent? && FaultAt(faults, MAILER).Silent?
      && !FaultAt(faults, 7).Before?
  }

  method LoginBody(cfg: Config, db: Database, logins: RedisLoginRequestStore, mailer: Mailer, now: Instant,
                   email: string, client: string, newUser: UserId, newDevice: DeviceId, id: RequestId,
                   generated: string, faults: seq<Fault>)
    returns (ok: bool, named: bool)
    requires db.working == db.committed && id !in logins.Contents().requests
    modifies db, logins, mailer
    ensures var waiting := Waiting(old(db.committed), old(logins.Contents()), now, email, client, newUser, newDevice);
            mailer.outbox == old(mailer.outbox) + Mailed(cfg, email, generated, faults, waiting)
    ensures ok ==> CodeWentOut(mailer.outbox, logins.Contents(), id, email)
    ensures var whole := WithDevice(WithUser(old(db.committed), email, newUser),
                                    UserFor(old(db.committed), email, newUser), client, newDevice);
            var waiting := Waiting(old(db.committed), old(logins.Contents()), now, email, client, newUser, newDevice);
            && db.committed == (if LoginCommits(faults, waiting) then whole else old(db.committed))
            && named == Named(faults, waiting)
            && ok == (LoginCommits(faults, waiting) && FaultAt(faults, 7).Silent?)
            && (ok ==> db.working == whole)
            && (Live(logins.Contents(), now, id) <==> id in logins.Contents().requests)
            && (id in logins.Contents().requests <==> named && !FaultAt(faults, 5).Before?)
    ensures var u := UserFor(old(db.committed), email, newUser);
            var d := DeviceFor(WithUser(old(db.committed), email, newUser), u, client, newDevice);
            var expiresAt := now + cfg.otpSeconds * SECOND;
            var request := LoginRequest(u, d, Bcrypt(CodeFor(cfg, generated)), cfg.otpMax, expiresAt, None);
            (forall i | i != MAILER :: FaultAt(faults, i).Silent?) ==>
              logins.Contents() == WithRequest(WithoutPending(old(logins.Contents()), now, u, d), now, id, request)
  {
    named := false;
    var u, d;
    ok, u := db.GetOrCreateUser(email, newUser, FaultAt(faults, 0));
    if !ok { return; }
    ok, d := db.UpsertDevice(u, client, newDevice, FaultAt(faults, 1));
    if !ok { return; }
    ok := logins.DeletePendingLogins(u, d, now, FaultAt(faults, 2), FaultAt(faults, 3), FaultAt(faults, 4));
    if !ok { return; }
    named := true; // request_id is bound from here on
    var expiresAt := now + cfg.otpSeconds * SECOND;
    var code := if cfg.devOtp.Some? && cfg.devOtp.value != "" then cfg.devOtp.value else generated;
    var request := LoginRequest(u, d, Bcrypt(code), cfg.otpMax, expiresAt, None);
    ok := logins.CreateLoginRequest(id, request, now, FaultAt(faults, 5));
    if !ok { return; }
    ok := mailer.SendOtpCode(email, code, FaultAt(faults, MAILER));
    if !ok { return; }
    ok := db.Commit(FaultAt(faults, 7));
  }

  /** The except block of a login: the compensating deletion, if a request was named, then the
      rollback, unless the deletion raised. */
  method UndoLogin(db: Database, logins: RedisLoginRequestStore, now: Instant, id: RequestId, named: bool,
                   readFault: Fault, deleteFault: Fault, listFault: Fault)
    returns (undone: bool)
    modifies db, logins
    ensures db.committed == old(db.committed) && (undone ==> db.working == db.committed)
    ensures undone <==> named ==> readFault.Silent? && deleteFault.Silent?
                                  && (FindRequest(old(logins.Contents()), now, id).Some? ==> listFault.Silent?)
    ensures undone ==> logins.Contents() == if named then WithoutRequest(old(logins.Contents()), now, id)
                                            else old(logins.Contents())
    ensures id in logins.requests <==>
              id in old(logins.requests) && (named ==> !readFault.Silent? || deleteFault.Before?)
  {
    undone := true;
    if named {
      undone := logins.DeleteLoginRequest(id, now, readFault, deleteFault, listFault);
      if !undone { return; }
    }
    db.Rollback();
  }

  /** What a login does under any schedule of faults. It succeeds exactly when nothing raises on the
      way. When it fails, its request is left behind exactly when it had been stored and the
      compensating deletion raised before deleting it; and the rollback is skipped (undone is false)
      exactly when any call of that deletion raised, so that the transaction is left to end with the
      HTTP request. */
  method LoginUser(cfg: Config, db: Database, logins: RedisLoginRequestStore, mailer: Mailer, now: Instant,
                   email: string, client: string, newUser: UserId, newDevice: DeviceId, id: RequestId,
                   generated: string, faults: seq<Fault>)
    returns (r: Result<RequestId>, undone: bool)
    requires db.working == db.committed && id !in logins.Contents().requests
    modifies db, logins, mailer
    ensures var waiting := Waiting(old(db.committed), old(logins.Contents()), now, email, client, newUser, newDevice);
            mailer.outbox == old(mailer.outbox) + Mailed(cfg, email, generated, faults, waiting)
    ensures r.Ok? ==> CodeWentOut(mailer.outbox, logins.Contents(), id, email)
    ensures undone ==> db.working == db.committed
    ensures var whole := WithDevice(WithUser(old(db.committed), email, newUser),
                                    UserFor(old(db.committed), email, newUser), client, newDevice);
            var waiting := Waiting(old(db.committed), old(logins.Contents()), now, email, client, newUser, newDevice);
            && db.committed == (if LoginCommits(faults, waiting) then whole else old(db.committed))
            && (r.Ok? <==> LoginCommits(faults, waiting) && FaultAt(faults, 7).Silent?)
            && (r.Ok? ==> undone && id in logins.Contents().requests)
            && (r.Err? ==>
                  && (id in logins.Contents().requests <==>
                        Named(faults, waiting) && !FaultAt(faults, 5).Before?
                        && (!FaultAt(faults, 8).Silent? || FaultAt(faults, 9).Before?))
                  && (!undone <==>
                        Named(faults, waiting)
                        && (!FaultAt(faults, 8).Silent? || !FaultAt(faults, 9).Silent?
                            || (!FaultAt(faults, 5).Before? && !FaultAt(faults, 10).Silent?))))
    ensures (forall i | i != MAILER :: FaultAt(faults, i).Silent?) ==>
      forall cache :: LoginOutcome(cfg, Stores(old(db.committed), cache, old(logins.Contents())), now, email, client,
                                   newUser, newDevice, id, generated, FaultAt(faults, MAILER).Silent?)
                      == Outcome(Stores(db.committed, cache, logins.Contents()), r)
  {
    var ok, named := LoginBody(cfg, db, logins, mailer, now, email, client, newUser, newDevice, id, generated, faults);
    if ok { return Ok(id), true; }
    undone := UndoLogin(db, logins, now, id, named, FaultAt(faults, 8), FaultAt(faults, 9), FaultAt(faults, 10));
    r := Err(DependencyFailure);
  }

  /** The mailer fails, and so does the first call of the compensation: the request stays, with a
      code nobody received, and the transaction is neither committed nor rolled back. */
  method FailedLoginLeavesRequest(cfg: Config, db: Database, logins: RedisLoginRequestStore, mailer: Mailer,
                                  now: Instant, email: string, client: string, newUser: UserId, newDevice: DeviceId,
                                  id: RequestId, generated: string)
    returns (r: Result<RequestId>, undone: bool)
    requires db.working == db.committed && id !in logins.Contents().requests
    modifies db, logins, mailer
    ensures mailer.outbox == old(mailer.outbox)
    ensures r.Err? && !undone && id in logins.Contents().requests && db.committed == old(db.committed)
  {
    var faults := [Silent, Silent, Silent, Silent, Silent, Silent, Before, Silent, Before];
    r, undone := LoginUser(cfg, db, logins, mailer, now, email, client, newUser, newDevice, id, generated, faults);
  }

  // ----- logout_user.py, revoke_token.py, revoke_all_tokens.py -----

  method LogoutBody(db: Database, cache: RedisAccessStateStore, now: Instant, u: UserId, sid: SessionId,
                    faults: seq<Fault>)
    returns (r: Result<()>)
    requires db.working == db.committed
    modifies db, cache
    ensures db.committed != old(db.committed) ==>
        RevokesOwn(old(db.committed), db.committed, u, sid, now) && sid !in cache.keys
    ensures r.Ok? ==> db.working == db.committed && sid in db.committed.sessions
                      && db.committed.sessions[sid].owner == u && db.committed.sessions[sid].revokedAt.Some?
                      && sid !in cache.keys
    ensures Quiet(faults) ==> LogoutOutcome(old(View(db, cache)), now, u, sid) == Outcome(View(db, cache), r)
  {
    r := Err(DependencyFailure);
    var ok, row := db.GetSession(sid, FaultAt(faults, 0));
    if !ok { return; }
    if row.None? { return Err(SessionNotFound); }
    if row.value.owner != u { return Err(Forbidden); }
    if row.value.revokedAt.None? {
      ok := db.RevokeSessionById(sid, now, FaultAt(faults, 1));
      if !ok { return; }
    }
    assert db.working == RevokedById(old(db.committed), sid, now) by {
      if row.value.revokedAt.Some? { assert db.working.sessions[sid := row.value] == db.working.sessions; }
    }
    ok := cache.RevokeSession(u, sid, FaultAt(faults, 2));
    if !ok { return; }
    ok := db.Commit(FaultAt(faults, 3));
    if !ok { return; }
    r := Ok(());
  }

  /** The session key is gone before the revocation commits. */
  method LogoutUser(db: Database, cache: RedisAccessStateStore, now: Instant, u: UserId, sid: SessionId,
                    faults: seq<Fault>)
    returns (r: Result<()>)
    requires db.working == db.committed
    modifies db, cache
    ensures db.working == db.committed
    ensures db.committed != old(db.committed) ==>
        RevokesOwn(old(db.committed), db.committed, u, sid, now) && sid !in cache.keys
    ensures r.Ok? ==> sid in db.committed.sessions && db.committed.sessions[sid].owner == u
                      && db.committed.sessions[sid].revokedAt.Some? && sid !in cache.keys
    ensures Quiet(faults) ==> LogoutOutcome(old(View(db, cache)), now, u, sid) == Outcome(View(db, cache), r)
  {
    r := LogoutBody(db, cache, now, u, sid, faults);
    if r.Err? { db.Rollback(); }
  }

  method RevokeTokenBody(db: Database, cache: RedisAccessStateStore, now: Instant, u: UserId, sid: SessionId,
                         faults: seq<Fault>)
    returns (r: Result<()>)
    requires db.working == db.committed
    modifies db, cache
    ensures r.Ok? || db.committed != old(db.committed) ==>
        RevokesOwn(old(db.committed), db.committed, u, sid, now) && sid !in cache.keys
    ensures r.Ok? ==> db.working == db.committed
    ensures Quiet(faults) ==> RevokeOutcome(old(View(db, cache)), now, u, sid) == Outcome(View(db, cache), r)
  {
    r := Err(DependencyFailure);
    var ok, touched := db.RevokeSession(sid, u, now, FaultAt(faults, 0));
    if !ok { return; }
    if !touched {
      var row;
      ok, row := db.GetSession(sid, FaultAt(faults, 1));
      if !ok { return; }
      if row.None? { return Err(SessionNotFound); }
      if row.value.owner != u { return Err(Forbidden); }
      return Err(SessionAlreadyRevoked);
    }
    ok := cache.RevokeSession(u, sid, FaultAt(faults, 1));
    if !ok { return; }
    ok := db.Commit(FaultAt(faults, 2));
    if !ok { return; }
    r := Ok(());
  }

  method RevokeToken(db: Database, cache: RedisAccessStateStore, now: Instant, u: UserId, sid: SessionId,
                     faults: seq<Fault>)
    returns (r: Result<()>)
    requires db.working == db.committed
    modifies db, cache
    ensures db.working == db.committed
    ensures r.Ok? || db.committed != old(db.committed) ==>
        RevokesOwn(old(db.committed), db.committed, u, sid, now) && sid !in cache.keys
    ensures Quiet(faults) ==> RevokeOutcome(old(View(db, cache)), now, u, sid) == Outcome(View(db, cache), r)
  {
    r := RevokeTokenBody(db, cache, now, u, sid, faults);
    if r.Err? { db.Rollback(); }
  }

  method RevokeAllTokens(db: Database, cache: RedisAccessStateStore, now: Instant, u: UserId, faults: seq<Fault>)
    returns (r: Result<()>)
    requires db.working == db.committed
    modifies db, cache
    ensures db.working == db.committed
    ensures db.committed == old(db.committed) || RevokesAllOwn(old(db.committed), db.committed, u, now)
    ensures r.Ok? ==> RevokesAllOwn(old(db.committed), db.committed, u, now)
    ensures r.Ok? || db.committed != old(db.committed) ==> cache.Contents() == Swept(old(cache.Contents()), u)
    ensures Quiet(faults) ==> r.Ok?
    ensures Quiet(faults) ==> RevokeAllOutcome(old(View(db, cache)), now, u) == Outcome(View(db, cache), r)
  {
    var ok := RevokeEverythingAndCommit(db, cache, u, now, FaultAt(faults, 0), FaultAt(faults, 1), FaultAt(faults, 2),
                                        FaultAt(faults, 3));
    if ok { return Ok(()); }
    db.Rollback();
    r := Err(DependencyFailure);
  }
}
