/** What the micro-step machine guarantees over every schedule, and what it does not. */
module Concurrency {
  import opened Domain
  import opened Interleaving
  import opened Schedules

  lemma {:induction false} RunConcat(s: Sys, a: seq<Step>, b: seq<Step>)
    ensures Run(s, a + b) == Run(Run(s, a), b)
    decreases |b|
  {
    if b == [] {
      assert a + b == a;
    } else {
      assert (a + b)[..|a + b| - 1] == a + b[..|b| - 1];
      RunConcat(s, a, b[..|b| - 1]);
    }
  }

  lemma RunNext(s: Sys, steps: seq<Step>, step: Step)
    ensures Run(s, steps + [step]) == Next(Run(s, steps), step)
  {
    assert (steps + [step])[..|steps|] == steps;
  }

  // ----- Versions -----

  /** At every micro-step, aborts included: Redis is silent about a user only while the committed
      version is still 1, and otherwise is level with the database or one ahead. */
  lemma RedisTracksVersions(steps: seq<Step>, u: UserId)
    requires u in StateAfter(steps).rows
    ensures var s := StateAfter(steps);
            if u in s.redis then s.rows[u].version <= s.redis[u] <= s.rows[u].version + 1 else s.rows[u].version == 1
  {
    EveryScheduleIsSound(steps);
    assert VersionOk(StateAfter(steps), u);
  }

  lemma ChangeRaises(s: Sys, step: Step, u: UserId)
    requires Enabled(s, step) && Changes(step) && u in s.redis
    ensures u in ExecChange(s, step).redis && s.redis[u] <= ExecChange(s, step).redis[u]
  {
  }

  lemma AnnounceRaises(s: Sys, p: Pid, u: UserId)
    requires Enabled(s, Announce(p)) && u in s.redis
    ensures u in ExecValidate(s, Announce(p)).redis && s.redis[u] <= ExecValidate(s, Announce(p)).redis[u]
  {
  }

  lemma RedisNeverFalls(s: Sys, step: Step, u: UserId)
    requires u in s.redis
    ensures u in Next(s, step).redis && s.redis[u] <= Next(s, step).redis[u]
  {
    if Enabled(s, step) {
      if Changes(step) {
        ChangeRaises(s, step, u);
      } else if step.Announce? {
        AnnounceRaises(s, step.p, u);
      } else {
        Framed(s, step);
      }
    }
  }

  /** Versions only grow, in Redis and in the database. */
  lemma {:induction false} VersionsNeverFall(s: Sys, steps: seq<Step>, u: UserId)
    requires Sound(s)
    ensures u in s.redis ==> u in Run(s, steps).redis && s.redis[u] <= Run(s, steps).redis[u]
    ensures u in s.rows ==> u in Run(s, steps).rows && s.rows[u].version <= Run(s, steps).rows[u].version
    decreases |steps|
  {
    SoundAfter(s, steps);
    if u in s.rows {
      assert HistoryOk(s, u);
      assert EntryOk(Run(s, steps), (u, s.rows[u].version));
    }
    if steps != [] && u in s.redis {
      VersionsNeverFall(s, steps[..|steps| - 1], u);
      RedisNeverFalls(Run(s, steps[..|steps| - 1]), steps[|steps| - 1], u);
    }
  }

  // ----- An accepted token was current while it was being validated -----

  predicate Running(s: Sys, p: Pid, t: Access) {
    p in s.procs && s.procs[p].Checking? && s.procs[p].t == t && !Final(s.procs[p])
  }

  /** The fast path reads neither role nor status, yet what it accepts is current. */
  lemma FastPathIsCurrent(s: Sys, t: Access)
    requires Sound(s) && t in s.minted && Consulted(s, t) == Accepted
    ensures t.sub in s.rows && s.rows[t.sub] == Row(t.role, Status.Active, t.av)
  {
    ConsultedOk(s, t);
    assert TokenOk(s, t) && EntryOk(s, (t.sub, t.av)) && VersionOk(s, t.sub) && HistoryOk(s, t.sub);
  }

  /** Only validations enter a checking phase, or write a session key; nobody
      brings a revoked session back. */
  ghost predicate Aside(s: Sys, s': Sys) {
    && (forall p | p in s'.procs && s'.procs[p].Checking? :: p in s.procs && s'.procs[p] == s.procs[p])
    && (forall sid | sid in s'.keys :: sid in s.keys && s'.keys[sid] == s.keys[sid])
    && (forall sid | sid in s.sessions && s.sessions[sid].revoked :: sid in s'.sessions && s'.sessions[sid].revoked)
  }

  lemma EndAside(s: Sys, p: Pid)
    ensures Aside(s, Ended(s, p, Failed))
  {
  }

  lemma MoveAside(s: Sys, s1: Sys, p: Pid, r: Refresh, stage: Stage)
    requires s1 == s.(rowLock := s1.rowLock)
    ensures Aside(s, Moved(s1, p, Refreshing(r, stage)))
  {
  }

  lemma SelectedAside(s: Sys, p: Pid, r: Refresh, expired: bool)
    ensures Aside(s, Selected(s, p, r, expired))
  {
    if Alive(s, r.jti) && s.sessions[r.jti].owner == r.sub {
      MoveAside(s, s.(rowLock := s.rowLock[r.jti := p]), p, r, if expired then Retiring else Held);
    } else if expired && !Alive(s, r.jti) {
      EndAside(s, p);
    } else {
      MoveAside(s, s, p, r, Replaying);
    }
  }

  lemma OwnedAside(s: Sys, p: Pid, r: Refresh)
    ensures Aside(s, Owned(s, p, r))
  {
    if r.sub in s.rows && s.rows[r.sub].status == Status.Active {
      MoveAside(s, s, p, r, Renewing(s.rows[r.sub].role, s.rows[r.sub].version));
    } else {
      EndAside(s, p);
    }
  }

  lemma EarlyRefreshAside(s: Sys, step: Step)
    requires Enabled(s, step) && (step.Ask? || step.Serialise? || step.DropKey? || step.Scan?)
    ensures Aside(s, ExecRefresh(s, step))
  {
  }

  lemma LateRefreshAside(s: Sys, step: Step)
    requires Enabled(s, step) && (step.Rotate? || step.Retire? || step.RevokeAll? || step.CommitReplay?)
    ensures Aside(s, ExecRefresh(s, step))
  {
  }

  lemma OtherAside(s: Sys, step: Step)
    requires Enabled(s, step) && !Validates(step) && !Refreshes(step)
    ensures Aside(s, Exec(s, step))
  {
    if Changes(step) {
      assert Aside(s, ExecChange(s, step));
    } else if Sweeps(step) {
      assert Aside(s, ExecSweep(s, step));
    } else {
      assert Aside(s, ExecOther(s, step));
    }
  }

  lemma StandsAside(s: Sys, step: Step)
    requires Enabled(s, step) && !Validates(step)
    ensures Aside(s, Exec(s, step))
  {
    if !Refreshes(step) { OtherAside(s, step); }
    else if step.Select? { SelectedAside(s, step.p, s.procs[step.p].r, step.expired); }
    else if step.ReadOwner? { OwnedAside(s, step.p, s.procs[step.p].r); }
    else if step.Rotate? || step.Retire? || step.RevokeAll? || step.CommitReplay? { LateRefreshAside(s, step); }
    else { EarlyRefreshAside(s, step); }
  }

  /** Trust comes from the Redis read or from the user read. */
  lemma CheckTrusts(s: Sys, step: Step, p: Pid, t: Access, check: Check)
    requires Enabled(s, step) && Validates(step) && Trusting(check)
    requires p in ExecValidate(s, step).procs && ExecValidate(s, step).procs[p] == Checking(t, check)
    requires !(p in s.procs && s.procs[p].Checking? && Trusting(s.procs[p].check))
    ensures step.p == p && Running(s, p, t)
    ensures Current(s, t) || Consulted(s, t) == Accepted
  {
  }

  lemma TrustComesFrom(s: Sys, step: Step, p: Pid, t: Access, check: Check)
    requires p in Next(s, step).procs && Next(s, step).procs[p] == Checking(t, check) && Trusting(check)
    requires !(p in s.procs && s.procs[p].Checking? && Trusting(s.procs[p].check))
    ensures Running(s, p, t)
    ensures Current(s, t) || Consulted(s, t) == Accepted
  {
    if Enabled(s, step) {
      if Validates(step) { CheckTrusts(s, step, p, t, check); } else { StandsAside(s, step); }
    }
  }

  /** A validation comes to trust its token only at a moment when the token is current. */
  lemma TrustIsEarned(s: Sys, step: Step, p: Pid, t: Access, check: Check)
    requires Sound(s) && p in Next(s, step).procs && Next(s, step).procs[p] == Checking(t, check) && Trusting(check)
    requires !(p in s.procs && s.procs[p].Checking? && Trusting(s.procs[p].check))
    ensures Running(s, p, t) && Current(s, t)
  {
    TrustComesFrom(s, step, p, t, check);
    assert PhaseOk(s, s.procs[p]);
    if Consulted(s, t) == Accepted { FastPathIsCurrent(s, t); }
  }

  /** After the first i steps p is validating the token, and the committed row is active and has the
      token's role and version. */
  ghost predicate Moment(steps: seq<Step>, i: nat, p: Pid, t: Access) {
    i < |steps| && var s := StateAfter(steps[..i]);
                   Running(s, p, t) && t.sub in s.rows && s.rows[t.sub] == Row(t.role, Status.Active, t.av)
  }

  ghost predicate Trusts(s: Sys, p: Pid, t: Access) {
    p in s.procs && s.procs[p].Checking? && s.procs[p].t == t && Trusting(s.procs[p].check)
  }

  lemma EarlierMoment(steps: seq<Step>, p: Pid, t: Access, i: nat)
    requires steps != [] && Moment(steps[..|steps| - 1], i, p, t)
    ensures Moment(steps, i, p, t)
  {
    assert steps[..i] == steps[..|steps| - 1][..i];
  }

  lemma TrustBefore(s: Sys, step: Step, p: Pid, t: Access)
    requires Sound(s) && Trusts(Next(s, step), p, t)
    ensures Trusts(s, p, t) || (Running(s, p, t) && Current(s, t))
  {
    if p in s.procs && s.procs[p].Checking? && Trusting(s.procs[p].check) {
      TokenIsKept(s, step, p);
    } else {
      TrustIsEarned(s, step, p, t, Next(s, step).procs[p].check);
    }
  }

  lemma {:induction false} TrustHadItsMoment(steps: seq<Step>, p: Pid, t: Access)
    requires Trusts(StateAfter(steps), p, t)
    ensures exists i: nat :: Moment(steps, i, p, t)
    decreases |steps|
  {
    var n := |steps| - 1;
    var before := steps[..n];
    EveryScheduleIsSound(before);
    TrustBefore(StateAfter(before), steps[n], p, t);
    if Trusts(StateAfter(before), p, t) {
      TrustHadItsMoment(before, p, t);
      var i: nat :| Moment(before, i, p, t);
      EarlierMoment(steps, p, t, i);
    } else {
      assert Moment(steps, n, p, t);
    }
  }

  lemma TokenIsKept(s: Sys, step: Step, p: Pid)
    requires p in s.procs && s.procs[p].Checking?
    requires p in Next(s, step).procs && Next(s, step).procs[p].Checking?
    ensures Next(s, step).procs[p].t == s.procs[p].t
  {
    if Enabled(s, step) && !Validates(step) { StandsAside(s, step); }
  }

  /** Over every schedule of validations, logins, refreshes and role or status changes, aborted
      ones included: a token that was accepted was, at some moment inside its own validation,
      exactly what the committed user row said, and that row was active. */
  lemma AcceptedTokenWasCurrent(steps: seq<Step>, p: Pid, t: Access)
    requires p in StateAfter(steps).procs && StateAfter(steps).procs[p] == Checking(t, Accepted)
    ensures exists i: nat :: Moment(steps, i, p, t)
  {
    TrustHadItsMoment(steps, p, t);
  }

  // ----- A change that published and then aborted -----

  ghost predicate Ahead(s: Sys, u: UserId) {
    u in s.rows && u in s.redis && s.redis[u] > s.rows[u].version
  }

  /** The first look at Redis refuses a current token exactly when Redis is ahead of the
      database, and then it refuses every token of that user. */
  lemma CurrentTokenRefusedIffAhead(steps: seq<Step>, t: Access)
    requires t in StateAfter(steps).minted
    ensures var s := StateAfter(steps);
            && (Current(s, t) ==> (Consulted(s, t) == Refused <==> Ahead(s, t.sub)))
            && (Ahead(s, t.sub) ==> Consulted(s, t) == Refused)
  {
    var s := StateAfter(steps);
    EveryScheduleIsSound(steps);
    assert TokenOk(s, t) && EntryOk(s, (t.sub, t.av)) && VersionOk(s, t.sub);
    assert t.sid in s.keys ==> KeyOk(s, t.sid);
  }

  /** The lockout lasts until some change of that user commits. */
  lemma LockoutLasts(steps: seq<Step>, more: seq<Step>, u: UserId)
    requires Ahead(StateAfter(steps), u)
    requires u in StateAfter(steps + more).rows
    requires StateAfter(steps + more).rows[u].version == StateAfter(steps).rows[u].version
    ensures Ahead(StateAfter(steps + more), u)
  {
    EveryScheduleIsSound(steps);
    RunConcat(IDLE, steps, more);
    VersionsNeverFall(StateAfter(steps), more, u);
  }

  /** And it ends there: the commit of a change brings the database level with Redis. */
  lemma LockoutEnds(steps: seq<Step>, p: Pid)
    requires Enabled(StateAfter(steps), CommitChange(p))
    ensures var u, s := StateAfter(steps).procs[p].user, StateAfter(steps + [CommitChange(p)]);
            u in s.rows && u in s.redis && s.redis[u] == s.rows[u].version && !Ahead(s, u)
  {
    var s := StateAfter(steps);
    EveryScheduleIsSound(steps);
    RunNext(IDLE, steps, CommitChange(p));
    assert ChangeOk(s, p) && VersionOk(s, s.procs[p].user);
  }

  // ----- Refreshes -----

  /** One advisory lock per user: refreshes of one user do not overlap. */
  lemma RefreshesExclude(steps: seq<Step>, p: Pid, q: Pid)
    requires InRefresh(StateAfter(steps), p) && InRefresh(StateAfter(steps), q)
    requires Critical(StateAfter(steps).procs[p].stage) && Critical(StateAfter(steps).procs[q].stage)
    requires StateAfter(steps).procs[p].r.sub == StateAfter(steps).procs[q].r.sub
    ensures p == q
  {
    var s := StateAfter(steps);
    EveryScheduleIsSound(steps);
    assert RefreshOk(s, p) && RefreshOk(s, q);
  }

  /** At most one refresh that presents a given token ever commits a rotation. */
  lemma RotatesOnce(steps: seq<Step>, p: Pid, q: Pid)
    requires InRefresh(StateAfter(steps), p) && InRefresh(StateAfter(steps), q)
    requires StateAfter(steps).procs[p].stage == Rotated && StateAfter(steps).procs[q].stage == Rotated
    requires StateAfter(steps).procs[p].r.jti == StateAfter(steps).procs[q].r.jti
    ensures p == q
  {
    var s := StateAfter(steps);
    EveryScheduleIsSound(steps);
    assert RefreshOk(s, p) && RefreshOk(s, q);
  }

  /** Whoever presents a rotated token afterwards is on the replay branch. */
  lemma LaterPresenterReplays(steps: seq<Step>, q: Pid, r: Refresh)
    requires r.jti in StateAfter(steps).rotatedBy
    ensures Selected(StateAfter(steps), q, r, false) == Moved(StateAfter(steps), q, Refreshing(r, Replaying))
  {
    EveryScheduleIsSound(steps);
  }

  // ----- Revocation against validations in flight -----

  ghost predicate Scheduled(s: Sys) { exists steps :: StateAfter(steps) == s }

  lemma ScheduledNext(s: Sys, step: Step)
    requires Scheduled(s)
    ensures Scheduled(Next(s, step))
  {
    var steps :| StateAfter(steps) == s;
    RunNext(IDLE, steps, step);
    assert StateAfter(steps + [step]) == Next(s, step);
  }

  lemma ScheduledIsSound(s: Sys)
    requires Scheduled(s)
    ensures Sound(s)
  {
    var steps :| StateAfter(steps) == s;
    EveryScheduleIsSound(steps);
  }

  /** Whoever has a session key, or is about to write one, has a version in Redis: the fill
      publishes the version before it writes the key. */
  ghost predicate Known(s: Sys) {
    && (forall sid | sid in s.keys :: s.keys[sid] in s.redis)
    && (forall p | Checks(s, p, Announced) :: s.procs[p].t.sub in s.redis)
  }

  lemma KnownAside(s: Sys, s': Sys)
    requires Known(s) && Aside(s, s') && s.redis.Keys <= s'.redis.Keys
    ensures Known(s')
  {
    forall p | Checks(s', p, Announced) ensures s'.procs[p].t.sub in s'.redis { assert Checks(s, p, Announced); }
  }

  lemma KnownValidated(s: Sys, step: Step)
    requires Known(s) && Enabled(s, step) && Validates(step)
    ensures Known(ExecValidate(s, step))
  {
    var s' := ExecValidate(s, step);
    forall p | Checks(s', p, Announced) ensures s'.procs[p].t.sub in s'.redis {
      if p != step.p { assert Checks(s, p, Announced); }
    }
  }

  lemma KnownStays(s: Sys, step: Step)
    requires Known(s)
    ensures Known(Next(s, step))
  {
    if Enabled(s, step) {
      if Validates(step) {
        KnownValidated(s, step);
      } else {
        StandsAside(s, step);
        forall u | u in s.redis ensures u in Next(s, step).redis { RedisNeverFalls(s, step, u); }
        KnownAside(s, Exec(s, step));
      }
    }
  }

  lemma {:induction false} EveryKeyIsKnown(steps: seq<Step>)
    ensures Known(StateAfter(steps))
    decreases |steps|
  {
    if steps != [] {
      EveryKeyIsKnown(steps[..|steps| - 1]);
      KnownStays(StateAfter(steps[..|steps| - 1]), steps[|steps| - 1]);
    }
  }

  lemma ScheduledIsKnown(s: Sys)
    requires Scheduled(s)
    ensures Known(s)
  {
    var steps :| StateAfter(steps) == s;
    EveryKeyIsKnown(steps);
  }

  /** A validation that has read the session as alive but has not yet written its key. */
  ghost predicate FillsLater(s: Sys, p: Pid, sid: SessionId) {
    (Checks(s, p, SawSession) || Checks(s, p, Announced)) && s.procs[p].t.sid == sid
  }

  predicate AcceptedFor(s: Sys, p: Pid, sid: SessionId) {
    Checks(s, p, Accepted) && s.procs[p].t.sid == sid
  }

  /** The session has no key, or Redis already has a later version than the session's token. */
  predicate Outdated(s: Sys, sid: SessionId) {
    sid in s.keys ==>
      && sid in s.births && s.births[sid].sub in s.redis && s.redis[s.births[sid].sub] > s.births[sid].av
  }

  /** No validation is past its session read, and the key, if there is one, is of no use. */
  ghost predicate Settled(s: Sys, sid: SessionId) {
    Outdated(s, sid) && forall p :: !FillsLater(s, p, sid)
  }

  ghost predicate Revoked(s: Sys, sid: SessionId) { sid in s.sessions && s.sessions[sid].revoked }

  /** No step lowers a version, replaces the token of a session, or writes the key of a session
      no validation is about to fill. */
  lemma OutdatedStays(s: Sys, step: Step, sid: SessionId)
    requires Sound(s) && Settled(s, sid)
    requires sid in Next(s, step).keys ==> sid in s.keys
    ensures Outdated(Next(s, step), sid)
  {
    if sid in Next(s, step).keys {
      SoundStep(s, step);
      RedisNeverFalls(s, step, s.births[sid].sub);
    }
  }

  lemma AsideSettled(s: Sys, s': Sys, sid: SessionId)
    requires Revoked(s, sid) && (forall p :: !FillsLater(s, p, sid)) && Aside(s, s')
    ensures Revoked(s', sid) && (forall p :: !FillsLater(s', p, sid))
    ensures forall p | AcceptedFor(s', p, sid) :: AcceptedFor(s, p, sid)
  {
    forall p ensures !FillsLater(s', p, sid) { assert !FillsLater(s, p, sid); }
  }

  lemma SettledConsult(s: Sys, t: Access)
    requires Sound(s) && t in s.minted && Outdated(s, t.sid)
    ensures Consulted(s, t) != Accepted
  {
    assert TokenOk(s, t);
  }

  /** A validation of a settled session is refused by its key's version, or misses the cache and
      then finds the session revoked. */
  lemma ValidatedSettled(s: Sys, step: Step, sid: SessionId)
    requires Enabled(s, step) && Validates(step) && Revoked(s, sid) && (forall p :: !FillsLater(s, p, sid))
    requires step.Consult? && s.procs[step.p].t.sid == sid ==> Consulted(s, s.procs[step.p].t) != Accepted
    ensures var s' := ExecValidate(s, step);
            && Revoked(s', sid) && (sid in s'.keys ==> sid in s.keys) && (forall p :: !FillsLater(s', p, sid))
            && (forall p | AcceptedFor(s', p, sid) :: AcceptedFor(s, p, sid))
  {
    var s' := ExecValidate(s, step);
    assert !FillsLater(s, step.p, sid);
    forall p ensures !FillsLater(s', p, sid) { assert !FillsLater(s, p, sid); }
  }

  lemma SettledStays(s: Sys, step: Step, sid: SessionId)
    requires Sound(s) && Revoked(s, sid) && Settled(s, sid)
    ensures Revoked(Next(s, step), sid) && Settled(Next(s, step), sid)
    ensures forall p | AcceptedFor(Next(s, step), p, sid) :: AcceptedFor(s, p, sid)
  {
    if Enabled(s, step) {
      if Validates(step) {
        if step.Consult? && s.procs[step.p].t.sid == sid {
          assert PhaseOk(s, s.procs[step.p]);
          SettledConsult(s, s.procs[step.p].t);
        }
        ValidatedSettled(s, step, sid);
        OutdatedStays(s, step, sid);
      } else {
        StandsAside(s, step);
        AsideSettled(s, Exec(s, step), sid);
        OutdatedStays(s, step, sid);
      }
    }
  }

  lemma {:induction false} SettledForGood(s: Sys, more: seq<Step>, sid: SessionId)
    requires Sound(s) && Revoked(s, sid) && Settled(s, sid)
    ensures Revoked(Run(s, more), sid) && Settled(Run(s, more), sid)
    ensures forall p | AcceptedFor(Run(s, more), p, sid) :: AcceptedFor(s, p, sid)
    decreases |more|
  {
    if more != [] {
      SoundAfter(s, more[..|more| - 1]);
      SettledForGood(s, more[..|more| - 1], sid);
      SettledStays(Run(s, more[..|more| - 1]), more[|more| - 1], sid);
    }
  }

  /** Some continuation accepts a validation of the session that is not accepted yet. */
  ghost predicate AcceptedLater(s: Sys, sid: SessionId) {
    exists more, p :: AcceptedFor(Run(s, more), p, sid) && !AcceptedFor(s, p, sid)
  }

  lemma Continued(s: Sys, more: seq<Step>, p: Pid, sid: SessionId)
    requires AcceptedFor(Run(s, more), p, sid) && !AcceptedFor(s, p, sid)
    ensures AcceptedLater(s, sid)
  {
  }

  lemma FillAccepts(s: Sys, p: Pid, sid: SessionId)
    requires Checks(s, p, Announced) && s.procs[p].t.sid == sid
    ensures AcceptedFor(Next(s, Fill(p)), p, sid)
  {
  }

  lemma AnnounceGoesOn(s: Sys, p: Pid, sid: SessionId)
    requires Checks(s, p, SawSession) && s.procs[p].t.sid == sid
    ensures var s' := Next(s, Announce(p)); Checks(s', p, Announced) && s'.procs[p].t.sid == sid
  {
  }

  lemma InFlightFills(s: Sys, p: Pid, sid: SessionId)
    requires FillsLater(s, p, sid)
    ensures AcceptedLater(s, sid)
  {
    assert Run(s, []) == s;
    if Checks(s, p, Announced) {
      FillAccepts(s, p, sid);
      RunNext(s, [], Fill(p));
      Continued(s, [] + [Fill(p)], p, sid);
    } else {
      AnnounceGoesOn(s, p, sid);
      RunNext(s, [], Announce(p));
      var more := [] + [Announce(p)];
      FillAccepts(Run(s, more), p, sid);
      RunNext(s, more, Fill(p));
      Continued(s, more + [Fill(p)], p, sid);
    }
  }

  lemma {:induction false} FreshPid(used: set<Pid>) returns (q: Pid)
    ensures forall p | p in used :: p < q
    decreases |used|
  {
    if used == {} {
      q := 0;
    } else {
      var p :| p in used;
      var q0 := FreshPid(used - {p});
      q := if p < q0 then q0 else p + 1;
      forall x | x in used ensures x < q { assert x == p || x in used - {p}; }
    }
  }

  lemma FastAcceptance(s: Sys, q: Pid, t: Access)
    requires t in s.minted && q !in s.procs && Consulted(s, t) == Accepted
    ensures AcceptedFor(Next(Next(s, Present(q, t)), Consult(q)), q, t.sid)
  {
    assert Next(s, Present(q, t)) == Moved(s, q, Checking(t, Presented));
  }

  /** A key whose version is level with its token is accepted at the next presentation. */
  lemma LevelKeyAccepts(s: Sys, sid: SessionId)
    requires Sound(s) && Known(s) && !Outdated(s, sid)
    ensures AcceptedLater(s, sid)
  {
    assert KeyOk(s, sid) && BirthOk(s, sid);
    var t := s.births[sid];
    assert TokenOk(s, t) && EntryOk(s, (t.sub, t.av)) && VersionOk(s, t.sub);
    var q := FreshPid(s.procs.Keys);
    FastAcceptance(s, q, t);
    assert Run(s, []) == s;
    RunNext(s, [], Present(q, t));
    RunNext(s, [] + [Present(q, t)], Consult(q));
    Continued(s, [] + [Present(q, t)] + [Consult(q)], q, sid);
  }

  lemma SettledIsRefused(s: Sys, sid: SessionId)
    requires Sound(s) && Revoked(s, sid) && Settled(s, sid)
    ensures !AcceptedLater(s, sid)
  {
    forall more, p | AcceptedFor(Run(s, more), p, sid) ensures AcceptedFor(s, p, sid) {
      SettledForGood(s, more, sid);
    }
  }

  lemma UnsettledIsAccepted(s: Sys, sid: SessionId)
    requires Sound(s) && Known(s) && !Settled(s, sid)
    ensures AcceptedLater(s, sid)
  {
    if Outdated(s, sid) {
      var p :| FillsLater(s, p, sid);
      InFlightFills(s, p, sid);
    } else {
      LevelKeyAccepts(s, sid);
    }
  }

  /** A revoked session is never accepted again if and only if no validation of it is under way
      past its session read and its key, should it still or again have one, is out of date.
      A key can be left behind in two ways: written after the revocation committed, or written
      between the deletion of the key and the commit. */
  lemma RevocationIsFinalIffSettled(s: Sys, sid: SessionId)
    requires Scheduled(s) && sid in s.sessions && s.sessions[sid].revoked
    ensures !AcceptedLater(s, sid) <==> Settled(s, sid)
  {
    ScheduledIsSound(s);
    ScheduledIsKnown(s);
    if Settled(s, sid) { SettledIsRefused(s, sid); } else { UnsettledIsAccepted(s, sid); }
  }

  // ----- Three schedules that go wrong -----

  function Aborted(s: Sys, p: Pid, u: UserId, edit: Edit): Sys {
    Next(Next(Next(s, Update(p, u, edit)), Publish(p)), Abort(p))
  }

  lemma PublishMoves(s: Sys, p: Pid, u: UserId, row: Row)
    requires p in s.procs && s.procs[p] == Changing(u, row, false)
    ensures Next(s, Publish(p)) == Moved(Raised(s, u, row.version), p, Changing(u, row, true))
  {
  }

  lemma AbortEnds(s: Sys, p: Pid)
    requires p in s.procs && s.procs[p].Changing?
    ensures Next(s, Abort(p)) == Ended(s, p, Failed)
  {
  }

  lemma PublishedThenAborted(s: Sys, p: Pid, u: UserId, row: Row)
    requires p in s.procs && s.procs[p] == Changing(u, row, false)
    ensures var s' := Next(Next(s, Publish(p)), Abort(p));
            s'.rows == s.rows && s'.redis == Raised(s, u, row.version).redis
  {
    PublishMoves(s, p, u, row);
    AbortEnds(Moved(Raised(s, u, row.version), p, Changing(u, row, true)), p);
  }

  lemma AbortedChange(s: Sys, p: Pid, u: UserId, edit: Edit)
    requires u in s.rows && u !in s.userLock && p !in s.procs
    ensures Aborted(s, p, u, edit).rows == s.rows
        && Aborted(s, p, u, edit).redis == Raised(s, u, s.rows[u].version + 1).redis
  {
    var row := Edited(s.rows[u], edit);
    var s1 := Moved(s.(userLock := s.userLock[u := p]), p, Changing(u, row, false));
    assert Next(s, Update(p, u, edit)) == s1;
    PublishedThenAborted(s1, p, u, row);
  }

  /** A change that publishes its version and then aborts leaves every current token of the user
      refused, from whatever state it started. */
  lemma AbortedChangeLocksOut(s: Sys, p: Pid, t: Access, edit: Edit)
    requires Current(s, t) && t.sub !in s.userLock && p !in s.procs
    ensures Current(Aborted(s, p, t.sub, edit), t) && Consulted(Aborted(s, p, t.sub, edit), t) == Refused
  {
    AbortedChange(s, p, t.sub, edit);
  }

  /** A validation that misses the cache and has read user and session. */
  function Validation(s: Sys, p: Pid, t: Access): Sys {
    Next(Next(Next(Next(s, Present(p, t)), Consult(p)), ReadUser(p)), ReadSession(p, false))
  }

  /** p has read the session; the session is then revoked; p goes on and fills the cache. */
  function Outrun(s: Sys, p: Pid, sid: SessionId): Sys { Next(Next(Next(s, RevokeRow(sid)), Announce(p)), Fill(p)) }

  lemma Overwritten(s: Sys, p: Pid, a: Phase, b: Phase)
    ensures Moved(Moved(s, p, a), p, b) == Moved(s, p, b)
  {
    assert s.procs[p := a][p := b] == s.procs[p := b];
  }

  lemma FirstReads(s: Sys, p: Pid, t: Access)
    requires t in s.minted && p !in s.procs && Consulted(s, t) == Missed
    ensures Next(Next(s, Present(p, t)), Consult(p)) == Moved(s, p, Checking(t, Missed))
  {
    var s1 := Moved(s, p, Checking(t, Presented));
    assert Next(s, Present(p, t)) == s1;
    Overwritten(s, p, Checking(t, Presented), Checking(t, Missed));
  }

  lemma UserIsSeen(s: Sys, p: Pid, t: Access)
    requires Current(s, t)
    ensures Next(Moved(s, p, Checking(t, Missed)), ReadUser(p)) == Moved(s, p, Checking(t, SawUser))
  {
    Overwritten(s, p, Checking(t, Missed), Checking(t, SawUser));
  }

  lemma SessionIsSeen(s: Sys, p: Pid, t: Access)
    requires Alive(s, t.sid) && s.sessions[t.sid].owner == t.sub
    ensures Next(Moved(s, p, Checking(t, SawUser)), ReadSession(p, false)) == Moved(s, p, Checking(t, SawSession))
  {
    var s1, s2 := Moved(s, p, Checking(t, SawUser)), Moved(s, p, Checking(t, SawSession));
    Overwritten(s, p, Checking(t, SawUser), Checking(t, SawSession));
    assert Next(s1, ReadSession(p, false)) == ExecValidate(s1, ReadSession(p, false)) == s2;
  }

  lemma ValidationReads(s: Sys, p: Pid, t: Access)
    requires t in s.minted && Current(s, t) && p !in s.procs && Consulted(s, t) == Missed
    requires Alive(s, t.sid) && s.sessions[t.sid].owner == t.sub
    ensures Validation(s, p, t) == Moved(s, p, Checking(t, SawSession))
  {
    FirstReads(s, p, t);
    UserIsSeen(s, p, t);
    SessionIsSeen(s, p, t);
  }

  /** What the two writes of a cache fill leave. */
  function Cached(s: Sys, p: Pid, t: Access): Sys {
    Moved(Raised(s, t.sub, t.av).(keys := s.keys[t.sid := t.sub]), p, Checking(t, Accepted))
  }

  lemma CacheFills(s: Sys, p: Pid, t: Access)
    requires Checks(s, p, SawSession) && s.procs[p].t == t
    ensures Next(Next(s, Announce(p)), Fill(p)) == Cached(s, p, t)
  {
    var s1 := Moved(Raised(s, t.sub, t.av), p, Checking(t, Announced));
    assert Next(s, Announce(p)) == s1;
    assert s.procs[p := Checking(t, Announced)][p := Checking(t, Accepted)] == s.procs[p := Checking(t, Accepted)];
  }

  lemma RowRevoked(s: Sys, sid: SessionId)
    requires sid in s.sessions && sid !in s.rowLock
    ensures Next(s, RevokeRow(sid)) == Buried(s, {sid})
  {
  }

  lemma OutrunSteps(s: Sys, p: Pid, t: Access)
    requires Checks(s, p, SawSession) && s.procs[p].t == t && t.sid in s.sessions && t.sid !in s.rowLock
    ensures Outrun(s, p, t.sid) == Cached(Buried(s, {t.sid}), p, t)
  {
    RowRevoked(s, t.sid);
    CacheFills(Buried(s, {t.sid}), p, t);
  }

  lemma OutrunKeys(s: Sys, p: Pid, t: Access)
    requires Checks(s, p, SawSession) && s.procs[p].t == t && Alive(s, t.sid) && t.sid !in s.rowLock
    requires t.sub in s.redis ==> s.redis[t.sub] == t.av
    ensures var s' := Outrun(s, p, t.sid);
            && t.sid in s'.sessions && s'.sessions[t.sid].revoked && s'.minted == s.minted
            && t.sid in s'.keys && s'.keys[t.sid] == t.sub && t.sub in s'.redis && s'.redis[t.sub] == t.av
            && (forall q :: q in s'.procs <==> q in s.procs)
  {
    OutrunSteps(s, p, t);
  }

  /** A session may be revoked and committed, a validation presented after that, and that
      validation accepted: an earlier one only has to be between its session read and its fill. */
  lemma RevocationCanBeOutrun(s: Sys, p: Pid, q: Pid, t: Access)
    requires t in s.minted && Current(s, t) && p !in s.procs && q !in s.procs && p != q
    requires Alive(s, t.sid) && s.sessions[t.sid].owner == t.sub && t.sid !in s.rowLock && Consulted(s, t) == Missed
    ensures var s' := Outrun(Validation(s, p, t), p, t.sid);
            && t.sid in s'.sessions && s'.sessions[t.sid].revoked && q !in s'.procs
            && AcceptedFor(Next(Next(s', Present(q, t)), Consult(q)), q, t.sid)
  {
    ValidationReads(s, p, t);
    var s1 := Moved(s, p, Checking(t, SawSession));
    OutrunKeys(s1, p, t);
    FastAcceptance(Outrun(s1, p, t.sid), q, t);
  }

  /** revoke_token.py and logout_user.py delete the key before they commit. Here p has read the
      session, the key is deleted, p fills the cache, and only then the revocation commits. */
  function Refilled(s: Sys, p: Pid, sid: SessionId): Sys {
    Next(Next(Next(Next(s, LoseKey(sid)), Announce(p)), Fill(p)), RevokeRow(sid))
  }

  lemma RefilledSteps(s: Sys, p: Pid, t: Access)
    requires Checks(s, p, SawSession) && s.procs[p].t == t && t.sid in s.sessions && t.sid !in s.rowLock
    ensures Refilled(s, p, t.sid) == Buried(Cached(s.(keys := s.keys - {t.sid}), p, t), {t.sid})
  {
    var s1 := s.(keys := s.keys - {t.sid});
    assert Next(s, LoseKey(t.sid)) == s1;
    CacheFills(s1, p, t);
    RowRevoked(Cached(s1, p, t), t.sid);
  }

  lemma RefilledKeys(s: Sys, p: Pid, t: Access)
    requires Checks(s, p, SawSession) && s.procs[p].t == t && t.sid in s.sessions && t.sid !in s.rowLock
    requires t.sub in s.redis ==> s.redis[t.sub] == t.av
    requires forall x | x != p :: !FillsLater(s, x, t.sid)
    ensures var s' := Refilled(s, p, t.sid);
            && t.sid in s'.sessions && s'.sessions[t.sid].revoked && s'.minted == s.minted
            && Consulted(s', t) == Accepted && s'.procs.Keys == s.procs.Keys
            && (forall x :: !FillsLater(s', x, t.sid))
  {
    RefilledSteps(s, p, t);
    var s' := Refilled(s, p, t.sid);
    forall x ensures !FillsLater(s', x, t.sid) {
      if x != p { assert !FillsLater(s, x, t.sid); }
    }
  }

  /** A revocation may commit while no validation of the session is under way and still leave a
      key behind, so that a validation presented afterwards is accepted. */
  lemma KeyCanBeRefilled(s: Sys, p: Pid, q: Pid, t: Access)
    requires t in s.minted && Current(s, t) && p !in s.procs && q !in s.procs && p != q
    requires Alive(s, t.sid) && s.sessions[t.sid].owner == t.sub && t.sid !in s.rowLock && Consulted(s, t) == Missed
    requires forall x :: !FillsLater(s, x, t.sid)
    ensures var s' := Refilled(Validation(s, p, t), p, t.sid);
            && t.sid in s'.sessions && s'.sessions[t.sid].revoked && (forall x :: !FillsLater(s', x, t.sid))
              && q !in s'.procs
            && AcceptedFor(Next(Next(s', Present(q, t)), Consult(q)), q, t.sid)
  {
    ValidationReads(s, p, t);
    var s1 := Moved(s, p, Checking(t, SawSession));
    forall x | x != p ensures !FillsLater(s1, x, t.sid) { assert !FillsLater(s, x, t.sid); }
    RefilledKeys(s1, p, t);
    FastAcceptance(Refilled(s1, p, t.sid), q, t);
  }

  ghost predicate FreshLogin(s: Sys, t: Access) {
    && t in s.minted && Current(s, t) && Alive(s, t.sid) && s.sessions[t.sid].owner == t.sub
      && Consulted(s, t) == Missed
    && t.sub !in s.userLock && t.sid !in s.rowLock
    && (forall p | p in s.procs :: p == 0) && (forall p :: !FillsLater(s, p, t.sid))
  }

  lemma FirstMint(s: Sys, u: UserId, sid: SessionId)
    requires s == Moved(Committed(IDLE, u, Row(Role.User, Status.Active, 1)), 0, Opening(u, Role.User, 1))
    ensures FreshLogin(Next(s, Mint(0, sid)), Access(u, sid, Role.User, 1))
  {
    assert Next(s, Mint(0, sid)) == Ended(Born(s, sid, u, Role.User, 1, false), 0, Done);
  }

  lemma FirstOpen(u: UserId)
    ensures Next(Next(IDLE, NewUser(u)), Open(0, u))
            == Moved(Committed(IDLE, u, Row(Role.User, Status.Active, 1)), 0, Opening(u, Role.User, 1))
  {
    assert Next(IDLE, NewUser(u)) == Committed(IDLE, u, Row(Role.User, Status.Active, 1));
  }

  /** The states these schedules start from exist: a first login leads to one. */
  lemma FirstLogin(u: UserId, sid: SessionId)
    ensures exists s :: Scheduled(s) && FreshLogin(s, Access(u, sid, Role.User, 1))
  {
    var s2 := Next(Next(IDLE, NewUser(u)), Open(0, u));
    assert StateAfter([]) == IDLE;
    ScheduledNext(IDLE, NewUser(u));
    ScheduledNext(Next(IDLE, NewUser(u)), Open(0, u));
    ScheduledNext(s2, Mint(0, sid));
    FirstOpen(u);
    FirstMint(s2, u, sid);
  }
}
