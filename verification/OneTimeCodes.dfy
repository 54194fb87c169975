/** Attempts, lifetimes and the pending index of login requests, over every run. */
module OneTimeCodes {
  import opened Domain
  import opened Tables
  import opened LoginStore
  import opened Authentication
  import opened Service

  type Trails = map<RequestId, Trail>

  /** A stored request agrees with its trail: it keeps the hash of the mailed code, wrong guesses and
      attempts left add up, it is consumed exactly when one code was right, its expiry is the original
      one, and each comparison has moved its deadline by at most a second. */
  ghost predicate EntryOk(cfg: Config, e: Entry, t: Trail) {
    && e.request.otp == Bcrypt(t.mail.code)
    && e.request.attemptsLeft + t.wrong == cfg.otpMax
    && (e.request.consumedAt.Some? <==> t.right == 1)
    && e.request.expiresAt == t.expiresAt
    && e.deadline <= t.deadline + (t.wrong + t.right) * SECOND
  }

  /** At most otpMax codes are ever compared, and at most one is right. */
  ghost predicate TrailOk(cfg: Config, t: Trail) {
    t.right <= 1 && t.wrong + t.right <= Max(cfg.otpMax, 0) && (t.right == 1 <==> t.session.Some?)
  }

  ghost predicate CountsOk(cfg: Config, logins: Logins, trails: Trails) {
    && (forall id | id in logins.requests :: id in trails && EntryOk(cfg, logins.requests[id], trails[id]))
    && (forall id | id in trails :: TrailOk(cfg, trails[id]))
  }

  ghost predicate SourcesOk(h: Descent, trails: Trails) {
    forall s | s in h.source :: h.source[s] in trails && trails[h.source[s]].session == Some(s)
  }

  /** Until its original deadline a stored request is listed in its device's pending set,
      which lives exactly as long. */
  ghost predicate Listed(logins: Logins, trails: Trails, id: RequestId)
    requires id in logins.requests && id in trails
  {
    var where := (logins.requests[id].request.user, logins.requests[id].request.device);
    where in logins.pending && logins.pending[where] == Pending({id}, trails[id].deadline)
  }

  ghost predicate PendingOk(now: Instant, logins: Logins, trails: Trails) {
    && (forall id | id in logins.requests :: id in trails && (now < trails[id].deadline ==> Listed(logins, trails, id)))
    && (forall k | k in logins.pending :: AtMostOne(logins.pending[k].ids))
    && (forall k, id | k in logins.pending && id in logins.pending[k].ids :: id in trails && WaitsOn(logins, id, k))
  }

  /** A pending set lists requests of its own device only. */
  ghost predicate WaitsOn(logins: Logins, id: RequestId, where: (UserId, DeviceId)) {
    id in logins.requests ==> (logins.requests[id].request.user, logins.requests[id].request.device) == where
  }

  ghost predicate AtMostOne(ids: set<RequestId>) {
    forall a, b | a in ids && b in ids :: a == b
  }

  ghost predicate OtpOk(cfg: Config, w: World) {
    match w
    case World(now, st, hist) =>
      && CountsOk(cfg, st.logins, hist.trails)
      && SourcesOk(hist.descent, hist.trails)
      && PendingOk(now, st.logins, hist.trails)
  }

  // ----- creating a request -----

  lemma CreationKeepsCounts(cfg: Config, now: Instant, logins: Logins, trails: Trails, id: RequestId, r: LoginRequest,
                            t: Trail)
    requires CountsOk(cfg, logins, trails) && id !in trails
    requires r.attemptsLeft == cfg.otpMax && r.consumedAt.None?
    requires r.otp == Bcrypt(t.mail.code)
    requires t == Trail(t.mail, now + CreationTtl(r.expiresAt, now) * SECOND, r.expiresAt, 0, 0, None)
    ensures var made := WithRequest(WithoutPending(logins, now, r.user, r.device), now, id, r);
            && CountsOk(cfg, made, trails[id := t])
            && CountsOk(cfg, WithoutRequest(made, now, id), trails[id := t])
  {
  }

  lemma CreationKeepsPending(now: Instant, logins: Logins, trails: Trails, id: RequestId, r: LoginRequest, t: Trail)
    requires PendingOk(now, logins, trails) && id !in trails
    requires t.deadline == now + CreationTtl(r.expiresAt, now) * SECOND
    ensures PendingOk(now, WithRequest(WithoutPending(logins, now, r.user, r.device), now, id, r), trails[id := t])
  {
    var mid := WithoutPending(logins, now, r.user, r.device);
    var made := WithRequest(mid, now, id, r);
    assert PendingIds(mid, now, r.user, r.device) == {};
    forall x | x in made.requests && now < trails[id := t][x].deadline ensures Listed(made, trails[id := t], x) {
      if x != id { assert Listed(logins, trails, x); }
    }
  }

  lemma CompensationKeepsPending(now: Instant, logins: Logins, trails: Trails, id: RequestId)
    requires PendingOk(now, logins, trails)
    ensures PendingOk(now, WithoutRequest(logins, now, id), trails)
  {
    var left := WithoutRequest(logins, now, id);
    forall x | x in left.requests && now < trails[x].deadline ensures Listed(left, trails, x) {
      assert Listed(logins, trails, x);
    }
  }

  /** A login stores a new request after clearing the device's pending one, and takes it back
      if the code could not be sent. */
  ghost predicate Creation(cfg: Config, w: World, next: World, op: Op, r: LoginRequest, t: Trail)
    requires op.Login?
  {
    var made := WithRequest(WithoutPending(w.st.logins, w.now, r.user, r.device), w.now, op.newRequest, r);
    && r.attemptsLeft == cfg.otpMax && r.consumedAt.None?
    && r.otp == Bcrypt(t.mail.code)
    && t == Trail(t.mail, w.now + CreationTtl(r.expiresAt, w.now) * SECOND, r.expiresAt, 0, 0, None)
    && next.st.logins == (if op.delivered then made else WithoutRequest(made, w.now, op.newRequest))
    && next.hist == w.hist.(trails := w.hist.trails[op.newRequest := t])
    && next.now == w.now
  }

  lemma LoginCreates(cfg: Config, w: World, op: Op) returns (r: LoginRequest, t: Trail)
    requires op.Login?
    ensures Creation(cfg, w, AfterLogin(cfg, w, op), op, r, t)
  {
    var u := UserFor(w.st.db, op.email, op.newUser);
    var d := DeviceFor(WithUser(w.st.db, op.email, op.newUser), u, op.client, op.newDevice);
    r := LoginRequest(u, d, Bcrypt(CodeFor(cfg, op.generated)), cfg.otpMax, w.now + cfg.otpSeconds * SECOND, None);
    var mail := Mail(op.email, CodeFor(cfg, op.generated));
    t := Trail(mail, w.now + CreationTtl(r.expiresAt, w.now) * SECOND, r.expiresAt, 0, 0, None);
  }

  lemma CreationKeepsOtp(cfg: Config, w: World, next: World, op: Op, r: LoginRequest, t: Trail)
    requires OtpOk(cfg, w) && Enabled(w, op) && op.Login? && Creation(cfg, w, next, op, r, t)
    ensures OtpOk(cfg, next)
  {
    var id, trails := op.newRequest, w.hist.trails[op.newRequest := t];
    CreationKeepsCounts(cfg, w.now, w.st.logins, w.hist.trails, id, r, t);
    CreationKeepsPending(w.now, w.st.logins, w.hist.trails, id, r, t);
    CompensationKeepsPending(w.now, WithRequest(WithoutPending(w.st.logins, w.now, r.user, r.device), w.now, id, r),
      trails, id);
  }

  // ----- comparing a code -----

  /** What one comparison does to the request and to its trail. */
  ghost predicate Patch(cfg: Config, e: Entry, next: Entry, t: Trail, trail: Trail) {
    && next.deadline <= e.deadline + SECOND
    && next.request.user == e.request.user && next.request.device == e.request.device
    && next.request.expiresAt == e.request.expiresAt && next.request.otp == e.request.otp
    && trail.mail == t.mail
    && trail.deadline == t.deadline && trail.expiresAt == t.expiresAt
    && e.request.attemptsLeft > 0 && e.request.consumedAt.None?
    && ((next.request == e.request.(attemptsLeft := e.request.attemptsLeft - 1) && trail == t.(wrong := t.wrong + 1))
        || (next.request == e.request.(consumedAt := next.request.consumedAt) && next.request.consumedAt.Some?
            && trail.session.Some? && trail == t.(right := t.right + 1, session := trail.session)))
  }

  lemma PatchKeepsCounts(cfg: Config, logins: Logins, trails: Trails, id: RequestId, next: Entry, trail: Trail)
    requires CountsOk(cfg, logins, trails) && id in logins.requests
    requires Patch(cfg, logins.requests[id], next, trails[id], trail)
    ensures CountsOk(cfg, logins.(requests := logins.requests[id := next]), trails[id := trail])
  {
    assert EntryOk(cfg, logins.requests[id], trails[id]) && TrailOk(cfg, trails[id]);
  }

  lemma PatchKeepsPending(cfg: Config, now: Instant, logins: Logins, trails: Trails, id: RequestId, next: Entry,
                          trail: Trail)
    requires PendingOk(now, logins, trails) && id in logins.requests
    requires Patch(cfg, logins.requests[id], next, trails[id], trail)
    ensures PendingOk(now, logins.(requests := logins.requests[id := next]), trails[id := trail])
  {
    var after, later := logins.(requests := logins.requests[id := next]), trails[id := trail];
    forall x | x in after.requests && now < later[x].deadline ensures Listed(after, later, x) {
      assert Listed(logins, trails, x);
    }
  }

  /** A verify that reaches the comparison patches its request and nothing else. */
  lemma VerifyPatches(cfg: Config, w: World, op: Op)
    requires CountsOk(cfg, w.st.logins, w.hist.trails) && Enabled(w, op) && op.Verify?
    requires VerifyGuard(w.st.db, w.st.logins, w.now, op.email, op.request).None?
    ensures op.request in w.st.logins.requests
    ensures var after, logins, trails := AfterVerify(cfg, w, op), w.st.logins, w.hist.trails;
            && op.request in after.st.logins.requests && op.request in after.hist.trails
            && after.st.logins
               == logins.(requests := logins.requests[op.request := after.st.logins.requests[op.request]])
            && after.hist.trails == trails[op.request := after.hist.trails[op.request]]
            && Patch(cfg, logins.requests[op.request], after.st.logins.requests[op.request],
                     trails[op.request], after.hist.trails[op.request])
  {
    var e := w.st.logins.requests[op.request];
    PatchDrift(e.deadline, w.now, op.ttl);
  }

  lemma VerifyKeepsSources(cfg: Config, w: World, op: Op)
    requires CountsOk(cfg, w.st.logins, w.hist.trails) && SourcesOk(w.hist.descent, w.hist.trails)
    requires Enabled(w, op) && op.Verify?
    requires VerifyGuard(w.st.db, w.st.logins, w.now, op.email, op.request).None?
    ensures SourcesOk(AfterVerify(cfg, w, op).hist.descent, AfterVerify(cfg, w, op).hist.trails)
  {
    VerifyPatches(cfg, w, op);
    assert EntryOk(cfg, w.st.logins.requests[op.request], w.hist.trails[op.request]);
    assert TrailOk(cfg, w.hist.trails[op.request]);
  }

  lemma VerifyKeepsOtp(cfg: Config, w: World, op: Op)
    requires OtpOk(cfg, w) && Enabled(w, op) && op.Verify?
    ensures OtpOk(cfg, AfterVerify(cfg, w, op))
  {
    if VerifyGuard(w.st.db, w.st.logins, w.now, op.email, op.request).None? {
      var after, id := AfterVerify(cfg, w, op), op.request;
      VerifyPatches(cfg, w, op);
      PatchKeepsCounts(cfg, w.st.logins, w.hist.trails, id, after.st.logins.requests[id], after.hist.trails[id]);
      PatchKeepsPending(cfg, w.now, w.st.logins, w.hist.trails, id, after.st.logins.requests[id],
        after.hist.trails[id]);
      VerifyKeepsSources(cfg, w, op);
    }
  }

  // ----- every run -----

  /** No other step touches login requests, their trails or the origin of sessions. */
  lemma OthersLeaveLogins(cfg: Config, w: World, op: Op)
    requires !op.Login? && !op.Verify?
    ensures var next := Apply(cfg, w, op);
            next.st.logins == w.st.logins && next.hist.trails == w.hist.trails
            && next.hist.descent.source == w.hist.descent.source && w.now <= next.now
  {
  }

  lemma StepKeepsOtp(cfg: Config, w: World, op: Op)
    requires OtpOk(cfg, w) && Enabled(w, op)
    ensures OtpOk(cfg, Apply(cfg, w, op))
  {
    if op.Login? {
      var r, t := LoginCreates(cfg, w, op);
      CreationKeepsOtp(cfg, w, AfterLogin(cfg, w, op), op, r, t);
    } else if op.Verify? {
      VerifyKeepsOtp(cfg, w, op);
    } else {
      OthersLeaveLogins(cfg, w, op);
    }
  }

  lemma {:induction false} RunKeepsOtp(cfg: Config, w: World, ops: seq<Op>)
    requires OtpOk(cfg, w) && ValidRun(cfg, w, ops)
    ensures OtpOk(cfg, Run(cfg, w, ops))
    decreases |ops|
  {
    if ops != [] {
      StepKeepsOtp(cfg, w, ops[0]);
      RunKeepsOtp(cfg, Apply(cfg, w, ops[0]), ops[1..]);
    }
  }

  lemma ReachableOtp(cfg: Config, w: World)
    requires Reachable(cfg, w)
    ensures OtpOk(cfg, w)
  {
    var ops :| ValidRun(cfg, START, ops) && Run(cfg, START, ops) == w;
    RunKeepsOtp(cfg, START, ops);
  }

  /** Attempt conservation. */
  lemma AttemptsAreConserved(cfg: Config, w: World, id: RequestId)
    requires Reachable(cfg, w) && id in w.hist.trails
    ensures var t := w.hist.trails[id];
            && t.right <= 1 && t.wrong + t.right <= Max(cfg.otpMax, 0)
            && (id in w.st.logins.requests ==>
                  var r := w.st.logins.requests[id].request;
                  r.attemptsLeft + t.wrong == cfg.otpMax && (0 <= cfg.otpMax ==> 0 <= r.attemptsLeft)
                  && (r.consumedAt.Some? <==> t.right == 1))
  {
    ReachableOtp(cfg, w);
    assert TrailOk(cfg, w.hist.trails[id]);
  }

  /** Every login session was opened by a right code for its own request. */
  lemma LoginsAreDistinct(cfg: Config, w: World, a: SessionId, b: SessionId)
    requires Reachable(cfg, w) && a in w.hist.descent.source && b in w.hist.descent.source
    ensures var id := w.hist.descent.source[a];
            && id in w.hist.trails && w.hist.trails[id].right == 1
            && (id in w.st.logins.requests ==> w.st.logins.requests[id].request.consumedAt.Some?)
            && (id == w.hist.descent.source[b] ==> a == b)
  {
    ReachableOtp(cfg, w);
    assert TrailOk(cfg, w.hist.trails[w.hist.descent.source[a]]);
  }

  /** However often a request is patched, its key dies no later than its original deadline
      plus one second per permitted attempt, and no code is accepted after its first expiry. */
  lemma LifetimeIsBounded(cfg: Config, w: World, op: Op, id: RequestId)
    requires Reachable(cfg, w) && id in w.st.logins.requests
    ensures id in w.hist.trails
    ensures w.st.logins.requests[id].deadline <= w.hist.trails[id].deadline + Max(cfg.otpMax, 0) * SECOND
    ensures op.Verify? && op.request == id
            && VerifyOutcome(cfg, w.st, w.now, op.signed, op.email, op.code, id, op.newSid, op.ttl).result.Ok?
            ==> w.now <= w.hist.trails[id].expiresAt
  {
    ReachableOtp(cfg, w);
    assert EntryOk(cfg, w.st.logins.requests[id], w.hist.trails[id]) && TrailOk(cfg, w.hist.trails[id]);
  }

  /** A device has at most one stored request within its original lifetime, and that one is
      the single member of the device's pending set. */
  lemma OnePendingPerDevice(cfg: Config, w: World, a: RequestId, b: RequestId)
    requires Reachable(cfg, w) && a in w.st.logins.requests && b in w.st.logins.requests
    requires a in w.hist.trails && w.now < w.hist.trails[a].deadline
    ensures var where := (w.st.logins.requests[a].request.user, w.st.logins.requests[a].request.device);
            && PendingIds(w.st.logins, w.now, where.0, where.1) == {a}
            && (b in w.hist.trails && w.now < w.hist.trails[b].deadline
                && (w.st.logins.requests[b].request.user, w.st.logins.requests[b].request.device) == where
                ==> a == b)
  {
    ReachableOtp(cfg, w);
    assert Listed(w.st.logins, w.hist.trails, a);
    if b in w.hist.trails && w.now < w.hist.trails[b].deadline {
      assert Listed(w.st.logins, w.hist.trails, b);
      if w.st.logins.requests[b].request.user == w.st.logins.requests[a].request.user
         && w.st.logins.requests[b].request.device == w.st.logins.requests[a].request.device {
        assert a in {b};
      }
    }
  }

  /** A pending set never has two members. */
  lemma PendingSetsAreSmall(cfg: Config, w: World, where: (UserId, DeviceId))
    requires Reachable(cfg, w) && where in w.st.logins.pending
    ensures |w.st.logins.pending[where].ids| <= 1
  {
    ReachableOtp(cfg, w);
    var ids := w.st.logins.pending[where].ids;
    assert AtMostOne(ids);
    if ids != {} {
      var id :| id in ids;
      assert ids == {id};
    }
  }
}
