/** Vocabulary shared by every module: identifiers, the clock, roles and statuses,
    token claims, and the errors the use cases raise. */
module Domain {

  // Identifiers are opaque to the code; a UUID is modelled as a natural number.
  type UserId = nat
  type DeviceId = nat
  type SessionId = nat
  type RequestId = nat

  // Instants and durations are whole microseconds, the resolution of datetime.
  type Instant = int

  const SECOND: Instant := 1_000_000
  const MINUTE: Instant := 60 * SECOND
  const DAY: Instant := 86_400 * SECOND

  datatype Option<+T> = None | Some(value: T)

  datatype Result<+T> = Ok(value: T) | Err(error: Error)

  datatype Error =
    | InvalidToken
    | TokenExpired
    | InvalidRefreshToken
    | SessionNotFound
    | SessionRevoked
    | SessionAlreadyRevoked
    | Forbidden
    | UserNotFound
    | InvalidStatusTransition
    | InvalidLoginRequest
    | InvalidCredentials(attemptsLeft: int)
    | LoginRequestAlreadyUsed(left: int)
    | OtpExpired
    | TooManyAttempts
    | InvalidOtp(remaining: int)
    | DependencyFailure // an exception raised by the database, Redis or the mailer

  datatype Role = SuperAdmin | Admin | User

  datatype Status = Active | Blocked | DeletionRequested | Deleted

  /** The settings the protocol depends on. */
  datatype Config = Config(
    accessMinutes: int,
    refreshDays: int,
    otpSeconds: int,
    otpMax: int,
    devOtp: Option<string>)
  {
    function AccessLifetime(): Instant { accessMinutes * MINUTE }
    function RefreshLifetime(): Instant { refreshDays * DAY }
  }

  datatype AccessClaims = AccessClaims(sub: UserId, sid: SessionId, role: Role, av: int, exp: int)

  datatype RefreshClaims = RefreshClaims(sub: UserId, jti: SessionId, exp: int)

  datatype Token = AccessToken(access: AccessClaims) | RefreshToken(refresh: RefreshClaims)

  datatype TokenPair = TokenPair(access: AccessClaims, refresh: RefreshClaims)

  datatype Principal = Principal(user: UserId, session: SessionId, role: Role, version: int)

  /** SHA-256 of a refresh token, taken to be injective. */
  datatype Digest = Sha256(token: RefreshClaims)

  /** bcrypt of a one-time code, taken to verify exactly the code it was made from. */
  datatype OtpHash = Bcrypt(code: string)

  function Max(a: int, b: int): int { if a < b then b else a }

  /** Python's int() applied to a quotient: truncation towards zero. */
  function TruncDiv(a: int, b: int): int
    requires b > 0
  {
    if a >= 0 then a / b else -((-a) / b)
  }

  /** A whole-second timestamp, as stored in the exp claim. */
  function Timestamp(t: Instant): int { TruncDiv(t, SECOND) }

  /** PyJWT refuses a token from the second its exp names (RFC 7519, section 4.1.4). */
  predicate Expired(exp: int, now: Instant) { exp * SECOND <= now }

  lemma TimestampBounds(t: Instant)
    ensures Timestamp(t) * SECOND < t + SECOND
    ensures t - SECOND < Timestamp(t) * SECOND
    ensures t >= 0 ==> Timestamp(t) * SECOND <= t
    ensures t % SECOND == 0 ==> Timestamp(t) * SECOND == t
  {
  }

  lemma TimestampMonotone(a: Instant, b: Instant)
    requires a <= b
    ensures Timestamp(a) <= Timestamp(b)
  {
  }

  /** An exception at an awaited call is raised either before the call took effect or,
      when only the reply was lost, after. */
  datatype Fault = Silent | Before | After

  /** The fault scheduled for the i-th awaited call of a use case. */
  function FaultAt(faults: seq<Fault>, i: nat): Fault {
    if i < |faults| then faults[i] else Silent
  }

  ghost predicate Quiet(faults: seq<Fault>) {
    forall i | 0 <= i < |faults| :: faults[i] == Silent
  }
}
