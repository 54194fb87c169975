/** What asking for a code and presenting one do in a reachable state, told by the mail that went out
    and the rows alone. */
module Codes {
  import opened Domain
  import opened Tables
  import opened LoginStore
  import opened Authentication
  import opened Service
  import opened Reachability
  import opened OneTimeCodes
  import opened Accounts
  import opened Requests

  function Verdict(cfg: Config, w: World, op: Op): Outcome<TokenPair>
    requires op.Verify?
  {
    VerifyOutcome(cfg, w.st, w.now, op.signed, op.email, op.code, op.request, op.newSid, op.ttl)
  }

  /** Every unrevoked session of the device is revoked, one new session appears, and the account is
      verified; nothing else in the database changes. */
  ghost predicate SessionOpened(before: Db, after: Db, u: UserId, d: DeviceId, sid: SessionId, row: SessionRow,
                                at: Instant)
    requires u in before.users
  {
    && after == before.(users := before.users[u := before.users[u].(verified := true)], sessions := after.sessions)
    && after.sessions.Keys == before.sessions.Keys + {sid} && after.sessions[sid] == row
    && forall s | s in before.sessions && s != sid ::
         after.sessions[s] == if before.sessions[s].owner == u && before.sessions[s].device == d
                                 && before.sessions[s].revokedAt.None?
                              then before.sessions[s].(revokedAt := Some(at)) else before.sessions[s]
  }

  /** One request is replaced by this one, its key living at most a second longer; all others and the
      pending sets stay. */
  ghost predicate RequestPatched(before: Logins, after: Logins, now: Instant, id: RequestId, request: LoginRequest) {
    && id in before.requests && id in after.requests
    && after == before.(requests := before.requests[id := after.requests[id]])
    && after.requests[id].request == request
    && now < after.requests[id].deadline <= before.requests[id].deadline + SECOND
  }

  lemma LoggedInRows(cfg: Config, db: Db, now: Instant, signed: Instant, u: UserId, d: DeviceId, sid: SessionId)
    requires u in db.users && sid !in db.sessions
    ensures var token := RefreshClaims(u, sid, Timestamp(signed + cfg.RefreshLifetime()));
            SessionOpened(db, LoggedIn(cfg, db, now, signed, u, d, sid), u, d, sid,
                          SessionRow(u, d, Sha256(token), now + cfg.RefreshLifetime(), None), now)
  {
  }

  lemma Patched(ls: Logins, now: Instant, id: RequestId, left: int, at: Instant, ttl: int)
    requires Live(ls, now, id) && TtlReading(ls.requests[id].deadline, now, ttl)
    ensures RequestPatched(ls, WithAttempts(ls, now, id, left, ttl), now, id,
                           ls.requests[id].request.(attemptsLeft := left))
    ensures RequestPatched(ls, WithConsumed(ls, now, id, at, ttl), now, id,
                           ls.requests[id].request.(consumedAt := Some(at)))
  {
    PatchDrift(ls.requests[id].deadline, now, ttl);
  }

  /** What the trail and the stored request of a live id agree on. */
  lemma RequestKnown(cfg: Config, w: World, id: RequestId)
    requires Reachable(cfg, w) && id in w.st.logins.requests
    ensures id in w.hist.trails
    ensures var r, t := w.st.logins.requests[id].request, w.hist.trails[id];
            && r.otp == Bcrypt(t.mail.code) && r.attemptsLeft == cfg.otpMax - t.wrong && r.expiresAt == t.expiresAt
            && (r.consumedAt.Some? <==> t.right == 1)
            && r.user in w.st.db.users && w.st.db.users[r.user].email == t.mail.to
  {
    ReachableOtp(cfg, w);
    assert EntryOk(cfg, w.st.logins.requests[id], w.hist.trails[id]);
    ReachableAddresses(cfg, w);
    assert AddressOk(w.st.db, w.st.logins, w.hist.trails, id);
  }

  /** Why a live request turns a code away unseen. */
  function TurnedAway(cfg: Config, w: World, email: string, t: Trail, left: int): Option<Error> {
    if email != t.mail.to then Some(InvalidCredentials(left))
    else if t.right == 1 then Some(LoginRequestAlreadyUsed(left))
    else if t.expiresAt < w.now then Some(OtpExpired)
    else if t.wrong >= cfg.otpMax then Some(TooManyAttempts)
    else None
  }

  lemma TurnedAwayUnseen(cfg: Config, w: World, op: Op)
    requires Reachable(cfg, w) && op.Verify? && Live(w.st.logins, w.now, op.request) && op.request in w.hist.trails
    requires var t := w.hist.trails[op.request]; TurnedAway(cfg, w, op.email, t, cfg.otpMax - t.wrong).Some?
    ensures var t := w.hist.trails[op.request];
            Verdict(cfg, w, op) == Outcome(w.st, Err(TurnedAway(cfg, w, op.email, t, cfg.otpMax - t.wrong).value))
  {
    RequestKnown(cfg, w, op.request);
  }

  /** Any code but the mailed one and the dev code costs exactly one attempt. */
  lemma WrongCodeCosts(cfg: Config, w: World, op: Op)
    requires Reachable(cfg, w) && Enabled(w, op) && op.Verify? && Live(w.st.logins, w.now, op.request)
    requires op.request in w.hist.trails
    requires var t := w.hist.trails[op.request]; TurnedAway(cfg, w, op.email, t, cfg.otpMax - t.wrong).None?
    requires op.code != w.hist.trails[op.request].mail.code && cfg.devOtp != Some(op.code)
    ensures var o, r := Verdict(cfg, w, op), w.st.logins.requests[op.request].request;
            var left := cfg.otpMax - w.hist.trails[op.request].wrong - 1;
            && o.result == Err(if left == 0 then TooManyAttempts else InvalidOtp(left))
            && o.stores.db == w.st.db && o.stores.cache == w.st.cache
            && RequestPatched(w.st.logins, o.stores.logins, w.now, op.request, r.(attemptsLeft := left))
  {
    RequestKnown(cfg, w, op.request);
    var left := cfg.otpMax - w.hist.trails[op.request].wrong - 1;
    Patched(w.st.logins, w.now, op.request, left, w.now, op.ttl);
  }

  /** The pair a login or a rotation hands out. */
  function PairFor(cfg: Config, u: UserId, sid: SessionId, row: UserRow, now: Instant, signed: Instant): TokenPair {
    TokenPair(AccessClaims(u, sid, row.role, row.version, Timestamp(now + cfg.AccessLifetime())),
              RefreshClaims(u, sid, Timestamp(signed + cfg.RefreshLifetime())))
  }

  /** The mailed code, or the dev code, opens a session on the device it was asked for from: that
      device's other sessions are revoked and no other device's, the request is consumed, and the
      user's keys are swept. */
  lemma RightCodeOpens(cfg: Config, w: World, op: Op)
    requires Reachable(cfg, w) && Enabled(w, op) && op.Verify? && Live(w.st.logins, w.now, op.request)
    requires op.request in w.hist.trails
    requires var t := w.hist.trails[op.request]; TurnedAway(cfg, w, op.email, t, cfg.otpMax - t.wrong).None?
    requires op.code == w.hist.trails[op.request].mail.code || cfg.devOtp == Some(op.code)
    ensures var o, r, db := Verdict(cfg, w, op), w.st.logins.requests[op.request].request, w.st.db;
            && r.user in db.users
            && var pair := PairFor(cfg, r.user, op.newSid, db.users[r.user], w.now, op.signed);
               && o.result == Ok(pair)
               && SessionOpened(db, o.stores.db, r.user, r.device, op.newSid,
                    SessionRow(r.user, r.device, Sha256(pair.refresh), w.now + cfg.RefreshLifetime(), None), w.now)
               && SweptOut(w, o.stores.cache, r.user)
               && RequestPatched(w.st.logins, o.stores.logins, w.now, op.request, r.(consumedAt := Some(w.now)))
  {
    RequestKnown(cfg, w, op.request);
    var r := w.st.logins.requests[op.request].request;
    LoggedInRows(cfg, w.st.db, w.now, op.signed, r.user, r.device, op.newSid);
    SweepIsOwn(cfg, w, r.user);
    Patched(w.st.logins, w.now, op.request, r.attemptsLeft, w.now, op.ttl);
  }

  /** A verify succeeds if and only if its request is live, was mailed to the address given, is not
      used up in any of three ways, and the code is the one in the mail or the dev code. */
  lemma VerifySucceedsExactly(cfg: Config, w: World, op: Op)
    requires Reachable(cfg, w) && Enabled(w, op) && op.Verify?
    ensures Verdict(cfg, w, op).result.Ok? <==>
              && op.request in w.st.logins.requests && w.now < w.st.logins.requests[op.request].deadline
              && op.request in w.hist.trails
              && var t := w.hist.trails[op.request];
                 && op.email == t.mail.to && t.right == 0 && w.now <= t.expiresAt && t.wrong < cfg.otpMax
                 && (op.code == t.mail.code || cfg.devOtp == Some(op.code))
    ensures !Live(w.st.logins, w.now, op.request) ==>
              Verdict(cfg, w, op) == Outcome(w.st, Err(InvalidLoginRequest))
  {
    if Live(w.st.logins, w.now, op.request) {
      RequestKnown(cfg, w, op.request);
      AttemptsAreConserved(cfg, w, op.request);
      var t := w.hist.trails[op.request];
      if TurnedAway(cfg, w, op.email, t, cfg.otpMax - t.wrong).Some? {
        TurnedAwayUnseen(cfg, w, op);
      } else if op.code == t.mail.code || cfg.devOtp == Some(op.code) {
        RightCodeOpens(cfg, w, op);
      } else {
        WrongCodeCosts(cfg, w, op);
      }
    }
  }

  // ----- asking for a code -----

  function Asked(cfg: Config, w: World, op: Op): Outcome<RequestId>
    requires op.Login?
  {
    LoginOutcome(cfg, w.st, w.now, op.email, op.client, op.newUser, op.newDevice, op.newRequest, op.generated,
                 op.delivered)
  }

  /** The account of the address, created as a plain user if there was none. */
  ghost predicate AccountFound(before: Db, after: Db, email: string, newUser: UserId, u: UserId) {
    if email in before.emails
    then u == before.emails[email] && after.users == before.users && after.emails == before.emails
    else && u == newUser && after.users == before.users[newUser := UserRow(email, User, Active, 1, false)]
         && after.emails == before.emails[email := newUser]
  }

  /** The user's device of that client, created if there was none. */
  ghost predicate DeviceFound(before: Db, after: Db, u: UserId, client: string, newDevice: DeviceId, d: DeviceId) {
    if (u, client) in before.clients
    then d == before.clients[(u, client)] && after.devices == before.devices && after.clients == before.clients
    else && d == newDevice && after.devices == before.devices[newDevice := u]
         && after.clients == before.clients[(u, client) := newDevice]
  }

  /** Of the earlier requests exactly those listed for the device are gone; the rest are as before. */
  ghost predicate OthersStay(before: Logins, after: Logins, now: Instant, u: UserId, d: DeviceId, id: RequestId) {
    forall x | x in before.requests && x != id ::
      if (u, d) in before.pending && now < before.pending[(u, d)].deadline && x in before.pending[(u, d)].ids
      then x !in after.requests
      else x in after.requests && after.requests[x] == before.requests[x]
  }

  /** The code in the mail is the dev code, if one is set and not empty, or the generated one. */
  ghost predicate MailFor(cfg: Config, op: Op, mail: Mail)
    requires op.Login?
  {
    && mail.to == op.email
    && (if cfg.devOtp.Some? && cfg.devOtp.value != "" then Some(mail.code) == cfg.devOtp
        else mail.code == op.generated)
  }

  /** The stored request: the hash of the mailed code, all attempts left, and the configured life. */
  ghost predicate RequestMade(cfg: Config, after: Logins, now: Instant, u: UserId, d: DeviceId, id: RequestId,
                              mail: Mail) {
    && id in after.requests
    && after.requests[id].request
       == LoginRequest(u, d, Bcrypt(mail.code), cfg.otpMax, now + cfg.otpSeconds * SECOND, None)
    && after.requests[id].deadline == now + Max(1, cfg.otpSeconds) * SECOND
    && (u, d) in after.pending && id in after.pending[(u, d)].ids
  }

  lemma TtlIsConfigured(cfg: Config, now: Instant)
    ensures CreationTtl(now + cfg.otpSeconds * SECOND, now) == Max(1, cfg.otpSeconds)
  {
    TimestampBounds(cfg.otpSeconds * SECOND);
  }

  lemma RequestIsMade(cfg: Config, ls: Logins, now: Instant, u: UserId, d: DeviceId, id: RequestId, mail: Mail)
    ensures var r := LoginRequest(u, d, Bcrypt(mail.code), cfg.otpMax, now + cfg.otpSeconds * SECOND, None);
            var after := WithRequest(WithoutPending(ls, now, u, d), now, id, r);
            && RequestMade(cfg, after, now, u, d, id, mail) && OthersStay(ls, after, now, u, d, id)
            && id !in WithoutRequest(after, now, id).requests
            && OthersStay(ls, WithoutRequest(after, now, id), now, u, d, id)
  {
    TtlIsConfigured(cfg, now);
  }

  lemma RowsAreFound(db: Db, email: string, client: string, newUser: UserId, newDevice: DeviceId)
    ensures var u := UserFor(db, email, newUser);
            var d := DeviceFor(WithUser(db, email, newUser), u, client, newDevice);
            var after := WithDevice(WithUser(db, email, newUser), u, client, newDevice);
            && after.sessions == db.sessions
            && AccountFound(db, after, email, newUser, u) && DeviceFound(db, after, u, client, newDevice, d)
  {
  }

  /** A login whose code could be mailed finds or creates account and device, replaces the device's
      waiting request, and stores the hash of what it mailed; no session, key or other request
      changes. One whose code could not be mailed leaves the database as it was and no new request. */
  lemma LoginDecides(cfg: Config, w: World, op: Op)
    requires op.Login?
    ensures exists u, d, mail :: LoginEffect(cfg, w, op, u, d, mail)
  {
    var u := UserFor(w.st.db, op.email, op.newUser);
    var d := DeviceFor(WithUser(w.st.db, op.email, op.newUser), u, op.client, op.newDevice);
    var mail := Mail(op.email, CodeFor(cfg, op.generated));
    RequestIsMade(cfg, w.st.logins, w.now, u, d, op.newRequest, mail);
    RowsAreFound(w.st.db, op.email, op.client, op.newUser, op.newDevice);
    assert LoginEffect(cfg, w, op, u, d, mail);
  }

  ghost predicate LoginEffect(cfg: Config, w: World, op: Op, u: UserId, d: DeviceId, mail: Mail)
    requires op.Login?
  {
    var o := Asked(cfg, w, op);
    var after := o.stores;
    && u == (if op.email in w.st.db.emails then w.st.db.emails[op.email] else op.newUser)
    && d == (if (u, op.client) in w.st.db.clients then w.st.db.clients[(u, op.client)] else op.newDevice)
    && MailFor(cfg, op, mail) && op.newRequest in AfterLogin(cfg, w, op).hist.trails
    && AfterLogin(cfg, w, op).hist.trails[op.newRequest].mail == mail
    && after.cache == w.st.cache && OthersStay(w.st.logins, after.logins, w.now, u, d, op.newRequest)
    && if op.delivered then
         && o.result == Ok(op.newRequest) && after.db.sessions == w.st.db.sessions
         && AccountFound(w.st.db, after.db, op.email, op.newUser, u)
         && DeviceFound(w.st.db, after.db, u, op.client, op.newDevice, d)
         && RequestMade(cfg, after.logins, w.now, u, d, op.newRequest, mail)
       else
         o.result == Err(DependencyFailure) && after.db == w.st.db && op.newRequest !in after.logins.requests
  }

  lemma EffectIsKnown(cfg: Config, w: World, op: Op) returns (u: UserId, d: DeviceId, mail: Mail)
    requires op.Login?
    ensures LoginEffect(cfg, w, op, u, d, mail)
  {
    LoginDecides(cfg, w, op);
    u, d, mail :| LoginEffect(cfg, w, op, u, d, mail);
  }

  /** In a reachable state the requests a login removes are those of its own device, and each of them
      that is still within its first lifetime. */
  lemma OnlyOwnReplaced(cfg: Config, w: World, op: Op, x: RequestId, u: UserId, d: DeviceId, mail: Mail)
    requires Reachable(cfg, w) && Enabled(w, op) && op.Login? && LoginEffect(cfg, w, op, u, d, mail)
    requires x in w.st.logins.requests
    ensures x in w.hist.trails
    ensures var r, after := w.st.logins.requests[x].request, Asked(cfg, w, op).stores.logins.requests;
            if r.user != u || r.device != d then x in after && after[x] == w.st.logins.requests[x]
            else w.now < w.hist.trails[x].deadline ==> x !in after
  {
    ReachableOtp(cfg, w);
    if w.now < w.hist.trails[x].deadline { assert Listed(w.st.logins, w.hist.trails, x); }
    var where := (u, d);
    if where in w.st.logins.pending && x in w.st.logins.pending[where].ids { assert WaitsOn(w.st.logins, x, where); }
  }

  lemma {:induction false} QuietRun(cfg: Config, w: World, ops: seq<Op>)
    requires forall i | 0 <= i < |ops| :: !ops[i].Login? && !ops[i].Verify?
    ensures Run(cfg, w, ops).st.logins == w.st.logins && Run(cfg, w, ops).hist.trails == w.hist.trails
    decreases |ops|
  {
    if ops != [] {
      OthersLeaveLogins(cfg, w, ops[0]);
      QuietRun(cfg, Apply(cfg, w, ops[0]), ops[1..]);
    }
  }

  /** The round trip: a code that was mailed opens a session for the address it went to, as long as
      the configured life lasts, whatever else happens in between short of other logins and verifies. */
  lemma MailedCodeOpens(cfg: Config, w: World, login: Op, ops: seq<Op>, verify: Op)
    requires Reachable(cfg, w) && Enabled(w, login) && login.Login? && login.delivered && cfg.otpMax > 0
    requires ValidRun(cfg, Apply(cfg, w, login), ops)
    requires forall i | 0 <= i < |ops| :: !ops[i].Login? && !ops[i].Verify?
    requires var later := Run(cfg, Apply(cfg, w, login), ops);
             && verify.Verify? && Enabled(later, verify) && verify.request == login.newRequest
             && verify.email == login.email && later.now < w.now + cfg.otpSeconds * SECOND
             && verify.code == Apply(cfg, w, login).hist.trails[login.newRequest].mail.code
    ensures Verdict(cfg, Run(cfg, Apply(cfg, w, login), ops), verify).result.Ok?
  {
    var next := Apply(cfg, w, login);
    var u, d, mail := EffectIsKnown(cfg, w, login);
    Reaches(cfg, w, login);
    RunReaches(cfg, next, ops);
    QuietRun(cfg, next, ops);
    RequestKnown(cfg, next, login.newRequest);
    VerifySucceedsExactly(cfg, Run(cfg, next, ops), verify);
  }
}
