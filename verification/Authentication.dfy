/** The authentication use cases: what each answers and what it leaves behind, on values.
    The methods of AuthenticationService are proved against these functions.
    app/modules/auth/application/use_cases/ and app/modules/auth/infrastructure/jwt_token_service.py */
module Authentication {
  import opened Domain
  import opened AccessStore
  import opened Tables
  import opened LoginStore

  /** Everything durable. */
  datatype Stores = Stores(db: Db, cache: Cache, logins: Logins)

  datatype Outcome<T> = Outcome(stores: Stores, result: Result<T>)

  /** The tokens signed so far; a token string decodes only when it is one of these. */
  datatype Issued = Issued(access: set<AccessClaims>, refresh: set<RefreshClaims>)

  predicate WasIssued(issued: Issued, token: Token) {
    match token
    case AccessToken(c) => c in issued.access
    case RefreshToken(c) => c in issued.refresh
  }

  function Expiry(token: Token): int {
    match token
    case AccessToken(c) => c.exp
    case RefreshToken(c) => c.exp
  }

  function Decode(issued: Issued, token: Token, now: Instant): Result<Token> {
    if !WasIssued(issued, token) then Err(InvalidToken)
    else if Expired(Expiry(token), now) then Err(TokenExpired)
    else Ok(token)
  }

  function DecodeAccess(issued: Issued, token: Token, now: Instant): Result<AccessClaims> {
    var decoded := Decode(issued, token, now);
    if decoded.Err? then Err(decoded.error)
    else if decoded.value.RefreshToken? || decoded.value.access.av < 1 then Err(InvalidToken)
    else Ok(decoded.value.access)
  }

  function DecodeRefresh(issued: Issued, token: Token, now: Instant): Result<RefreshClaims> {
    var decoded := Decode(issued, token, now);
    if decoded.Err? then Err(decoded.error)
    else if decoded.value.AccessToken? then Err(InvalidToken)
    else Ok(decoded.value.refresh)
  }

  function NewAccess(cfg: Config, u: UserId, sid: SessionId, role: Role, version: int, now: Instant): AccessClaims {
    AccessClaims(u, sid, role, version, Timestamp(now + cfg.AccessLifetime()))
  }

  function NewRefresh(cfg: Config, u: UserId, sid: SessionId, signed: Instant): RefreshClaims {
    RefreshClaims(u, sid, Timestamp(signed + cfg.RefreshLifetime()))
  }

  function NewSession(cfg: Config, u: UserId, d: DeviceId, token: RefreshClaims, now: Instant): SessionRow {
    SessionRow(u, d, Sha256(token), now + cfg.RefreshLifetime(), None)
  }

  // ----- validate_access_token.py -----

  function PrincipalOf(c: AccessClaims): Principal { Principal(c.sub, c.sid, c.role, c.av) }

  /** What the database alone says about a decoded access token. */
  function SlowAnswer(db: Db, now: Instant, c: AccessClaims): Result<Principal> {
    var user := FindUser(db, c.sub);
    if user.None? || !user.value.status.Active? then Err(InvalidToken)
    else if user.value.role != c.role || user.value.version != c.av then Err(InvalidToken)
    else
      var session := FindSession(db, c.sid);
      if session.None? then Err(SessionNotFound)
      else if session.value.revokedAt.Some? || session.value.expiresAt < now then Err(SessionRevoked)
      else if session.value.owner != c.sub then Err(InvalidToken)
      else Ok(PrincipalOf(c))
  }

  predicate FastReject(state: CachedAccessState, c: AccessClaims) {
    (state.version.Some? && state.version.value != c.av) || state.active == Some(false)
  }

  predicate FastAccept(state: CachedAccessState, c: AccessClaims) {
    state.version == Some(c.av) && state.active == Some(true)
  }

  function ClaimsAnswer(db: Db, cache: Cache, now: Instant, c: AccessClaims): Result<Principal> {
    var state := Lookup(cache, now, c.sub, c.sid);
    if FastReject(state, c) then Err(InvalidToken)
    else if FastAccept(state, c) then Ok(PrincipalOf(c))
    else SlowAnswer(db, now, c)
  }

  predicate Fills(db: Db, cache: Cache, now: Instant, c: AccessClaims) {
    var state := Lookup(cache, now, c.sub, c.sid);
    !FastReject(state, c) && !FastAccept(state, c) && SlowAnswer(db, now, c).Ok?
  }

  function ClaimsCache(db: Db, cache: Cache, now: Instant, c: AccessClaims): Cache {
    if Fills(db, cache, now, c)
    then Filled(cache, now, c.sub, c.av, c.sid, db.sessions[c.sid].expiresAt)
    else cache
  }

  function ValidateAnswer(db: Db, cache: Cache, issued: Issued, now: Instant, token: Token): Result<Principal> {
    var claims := DecodeAccess(issued, token, now);
    if claims.Err? then Err(claims.error) else ClaimsAnswer(db, cache, now, claims.value)
  }

  function ValidateCache(db: Db, cache: Cache, issued: Issued, now: Instant, token: Token): Cache {
    var claims := DecodeAccess(issued, token, now);
    if claims.Err? then cache else ClaimsCache(db, cache, now, claims.value)
  }

  // ----- refresh_token.py -----

  function RevokeEverything(st: Stores, u: UserId, now: Instant): Stores {
    st.(db := RevokedForUser(st.db, u, now), cache := Swept(st.cache, u))
  }

  function RevokeOne(st: Stores, u: UserId, sid: SessionId, now: Instant): Stores {
    st.(db := RevokedById(st.db, sid, now), cache := Dropped(st.cache, u, sid))
  }

  function Rotated(cfg: Config, db: Db, now: Instant, signed: Instant, old_: RefreshClaims, newSid: SessionId): Db
    requires old_.jti in db.sessions
  {
    var token := NewRefresh(cfg, old_.sub, newSid, signed);
    WithSession(RevokedById(db, old_.jti, now), newSid,
                NewSession(cfg, old_.sub, db.sessions[old_.jti].device, token, now))
  }

  function RefreshClaimsOutcome(cfg: Config, st: Stores, now: Instant, signed: Instant, c: RefreshClaims,
                                newSid: SessionId): Outcome<TokenPair> {
    var session := FindForUpdate(st.db, c.jti);
    if session.None? then
      Outcome(if !Expired(c.exp, now) then RevokeEverything(st, c.sub, now) else st, Err(InvalidRefreshToken))
    else if session.value.owner != c.sub then
      Outcome(RevokeEverything(st, c.sub, now), Err(InvalidRefreshToken))
    else if session.value.expiresAt < now then
      Outcome(RevokeOne(st, c.sub, c.jti, now), Err(TokenExpired))
    else if session.value.digest != Sha256(c) then
      Outcome(RevokeEverything(st, session.value.owner, now), Err(InvalidRefreshToken))
    else
      var cache := Dropped(st.cache, c.sub, c.jti);
      var user := FindUser(st.db, c.sub);
      if user.None? || !user.value.status.Active? then
        Outcome(st.(cache := cache), Err(InvalidRefreshToken))
      else
        Outcome(st.(db := Rotated(cfg, st.db, now, signed, c, newSid), cache := cache),
                Ok(TokenPair(NewAccess(cfg, c.sub, newSid, user.value.role, user.value.version, now),
                             NewRefresh(cfg, c.sub, newSid, signed))))
  }

  /** The token is decoded before the wait for the advisory lock, at seen; now is read after it; and
      the new refresh token is signed later still, by the signer's own clock. */
  function RefreshOutcome(cfg: Config, st: Stores, issued: Issued, seen: Instant, now: Instant, signed: Instant,
                          token: Token, newSid: SessionId): Outcome<TokenPair> {
    var claims := DecodeRefresh(issued, token, seen);
    if claims.Err? then Outcome(st, Err(claims.error))
    else RefreshClaimsOutcome(cfg, st, now, signed, claims.value, newSid)
  }

  // ----- verify_email.py -----

  predicate OtpMatches(cfg: Config, code: string, hash: OtpHash) {
    cfg.devOtp == Some(code) || Bcrypt(code) == hash
  }

  /** Why a code is turned away before it is compared with anything. */
  function VerifyGuard(db: Db, logins: Logins, now: Instant, email: string, id: RequestId): Option<Error> {
    var request := FindRequest(logins, now, id);
    if request.None? then Some(InvalidLoginRequest)
    else
      var user := FindUser(db, request.value.user);
      if user.None? || user.value.email != email then Some(InvalidCredentials(request.value.attemptsLeft))
      else if request.value.consumedAt.Some? then Some(LoginRequestAlreadyUsed(request.value.attemptsLeft))
      else if request.value.expiresAt < now then Some(OtpExpired)
      else if request.value.attemptsLeft <= 0 then Some(TooManyAttempts)
      else None
  }

  function LoggedIn(cfg: Config, db: Db, now: Instant, signed: Instant, u: UserId, d: DeviceId, newSid: SessionId): Db {
    var token := NewRefresh(cfg, u, newSid, signed);
    WithSession(RevokedForDevice(WithVerified(db, u), u, d, now), newSid, NewSession(cfg, u, d, token, now))
  }

  function VerifyOutcome(cfg: Config, st: Stores, now: Instant, signed: Instant, email: string, code: string,
                         id: RequestId, newSid: SessionId, ttl: int): Outcome<TokenPair> {
    var guard := VerifyGuard(st.db, st.logins, now, email, id);
    if guard.Some? then Outcome(st, Err(guard.value))
    else
      var request := FindRequest(st.logins, now, id).value;
      if !OtpMatches(cfg, code, request.otp) then
        var left := request.attemptsLeft - 1;
        Outcome(st.(logins := WithAttempts(st.logins, now, id, left, ttl)),
                Err(if left <= 0 then TooManyAttempts else InvalidOtp(left)))
      else
        var user := st.db.users[request.user];
        Outcome(Stores(LoggedIn(cfg, st.db, now, signed, request.user, request.device, newSid),
                       Swept(st.cache, request.user),
                       WithConsumed(st.logins, now, id, now, ttl)),
                Ok(TokenPair(NewAccess(cfg, request.user, newSid, user.role, user.version, now),
                             NewRefresh(cfg, request.user, newSid, signed))))
  }

  // ----- login_user.py -----

  /** A one-time code sent to an address. */
  datatype Mail = Mail(to: string, code: string)

  /** A dev code is used only when it is set and not empty. */
  function CodeFor(cfg: Config, generated: string): string {
    if cfg.devOtp.Some? && cfg.devOtp.value != "" then cfg.devOtp.value else generated
  }

  function LoginOutcome(cfg: Config, st: Stores, now: Instant, email: string, client: string, newUser: UserId,
                        newDevice: DeviceId, id: RequestId, generated: string, delivered: bool): Outcome<RequestId> {
    var u := UserFor(st.db, email, newUser);
    var db := WithUser(st.db, email, newUser);
    var d := DeviceFor(db, u, client, newDevice);
    var request := LoginRequest(u, d, Bcrypt(CodeFor(cfg, generated)), cfg.otpMax,
                                now + cfg.otpSeconds * SECOND, None);
    var logins := WithRequest(WithoutPending(st.logins, now, u, d), now, id, request);
    if delivered then
      Outcome(st.(db := WithDevice(db, u, client, newDevice), logins := logins), Ok(id))
    else
      Outcome(st.(logins := WithoutRequest(logins, now, id)), Err(DependencyFailure))
  }

  // ----- logout_user.py, revoke_token.py, revoke_all_tokens.py -----

  function LogoutOutcome(st: Stores, now: Instant, u: UserId, sid: SessionId): Outcome<()> {
    var row := FindSession(st.db, sid);
    if row.None? then Outcome(st, Err(SessionNotFound))
    else if row.value.owner != u then Outcome(st, Err(Forbidden))
    else Outcome(RevokeOne(st, u, sid, now), Ok(()))
  }

  function RevokeOutcome(st: Stores, now: Instant, u: UserId, sid: SessionId): Outcome<()> {
    if OwnedAndActive(st.db, sid, u) then Outcome(RevokeOne(st, u, sid, now), Ok(()))
    else
      var row := FindSession(st.db, sid);
      Outcome(st, Err(if row.None? then SessionNotFound
                      else if row.value.owner != u then Forbidden
                      else SessionAlreadyRevoked))
  }

  function RevokeAllOutcome(st: Stores, now: Instant, u: UserId): Outcome<()> {
    Outcome(RevokeEverything(st, u, now), Ok(()))
  }
}
