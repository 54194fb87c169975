/** What every schedule of micro-steps keeps, aborts included. */
module Schedules {
  import opened Domain
  import opened Interleaving

  // ----- Versions: PostgreSQL against Redis -----

  /** Redis knows a version unless it is still 1, and is never behind nor more than one ahead. */
  ghost predicate VersionOk(s: Sys, u: UserId) {
    if u in s.rows then
      (if u in s.redis then s.rows[u].version <= s.redis[u] <= s.rows[u].version + 1 else s.rows[u].version == 1)
    else u in s.redis ==> s.redis[u] <= 2
  }

  /** A pending change holds the row lock and is one version ahead; once published, Redis has it. */
  ghost predicate ChangeOk(s: Sys, p: Pid) {
    p in s.procs && s.procs[p].Changing? ==>
      var u, row := s.procs[p].user, s.procs[p].row;
      && u in s.userLock && s.userLock[u] == p
      && row.version == (if u in s.rows then s.rows[u].version + 1 else 2)
      && (s.procs[p].published ==> u in s.redis && s.redis[u] >= row.version)
  }

  /** The latest entry of a user's history is the committed row, and there is no later one. */
  ghost predicate HistoryOk(s: Sys, u: UserId) {
    u in s.rows ==> (u, s.rows[u].version) in s.past && s.past[(u, s.rows[u].version)] == s.rows[u]
  }

  ghost predicate EntryOk(s: Sys, k: (UserId, int)) {
    k in s.past ==> k.0 in s.rows && 1 <= k.1 <= s.rows[k.0].version && s.past[k].version == k.1
  }

  ghost predicate VersionsOk(s: Sys) {
    && (forall u :: VersionOk(s, u))
    && (forall p | p in s.procs :: ChangeOk(s, p))
  }

  ghost predicate PastOk(s: Sys) {
    && (forall u | u in s.rows :: HistoryOk(s, u))
    && (forall k | k in s.past :: EntryOk(s, k))
  }

  // ----- Tokens and session keys -----

  ghost predicate WasRow(s: Sys, u: UserId, version: int, role: Role) {
    (u, version) in s.past && s.past[(u, version)].role == role
  }

  ghost predicate WasActive(s: Sys, t: Access) {
    (t.sub, t.av) in s.past && s.past[(t.sub, t.av)].status == Status.Active
  }

  /** A session has one access token, made from a row that was once committed. */
  ghost predicate TokenOk(s: Sys, t: Access) {
    && t.sid in s.sessions && s.sessions[t.sid].owner == t.sub
    && t.sid in s.births && s.births[t.sid] == t
    && WasRow(s, t.sub, t.av, t.role)
  }

  ghost predicate BirthOk(s: Sys, sid: SessionId) {
    sid in s.births ==> s.births[sid].sid == sid && s.births[sid] in s.minted
  }

  ghost predicate TicketOk(s: Sys, r: Refresh) {
    r.jti in s.sessions && s.sessions[r.jti].owner == r.sub
  }

  ghost predicate Trusting(check: Check) {
    check.SawUser? || check.SawSession? || check.Announced? || check.Accepted?
  }

  ghost predicate PhaseOk(s: Sys, phase: Phase) {
    match phase
    case Checking(t, check) => t in s.minted && (Trusting(check) ==> WasActive(s, t))
    case Opening(u, role, version) => WasRow(s, u, version, role)
    case Refreshing(r, stage) => r in s.tickets && (stage.Renewing? ==> WasRow(s, r.sub, stage.version, stage.role))
    case _ => true
  }

  /** A key stands for a session whose token was vouched for by an active row. */
  ghost predicate KeyOk(s: Sys, sid: SessionId) {
    sid in s.keys ==> sid in s.births && s.births[sid].sub == s.keys[sid] && WasActive(s, s.births[sid])
  }

  ghost predicate TokensOk(s: Sys) {
    && (forall t | t in s.minted :: TokenOk(s, t))
    && (forall sid | sid in s.births :: BirthOk(s, sid))
    && (forall r | r in s.tickets :: TicketOk(s, r))
    && (forall p | p in s.procs :: PhaseOk(s, s.procs[p]))
    && (forall sid | sid in s.keys :: KeyOk(s, sid))
  }

  // ----- Refreshes -----

  /** Between taking the advisory lock and the end of its transaction. */
  ghost predicate Critical(stage: Stage) { !stage.Asked? && !stage.Rotated? }

  /** Between selecting its session for update and the end of its transaction. */
  ghost predicate Holding(stage: Stage) {
    stage.Held? || stage.Cleared? || stage.Renewing? || stage.Retiring?
  }

  /** A session a replay must not miss: alive and born by a refresh. */
  ghost predicate Offspring(s: Sys, u: UserId, sid: SessionId) {
    Alive(s, sid) && s.sessions[sid].owner == u && s.sessions[sid].renewed
  }

  ghost predicate Locks(s: Sys, p: Pid, ids: set<SessionId>) {
    forall sid | sid in ids :: sid in s.rowLock && s.rowLock[sid] == p
  }

  ghost predicate StageOk(s: Sys, p: Pid, r: Refresh, stage: Stage) {
    && (Critical(stage) ==> LockKey(r.sub) in s.advisory && s.advisory[LockKey(r.sub)] == p)
    && (Holding(stage) ==>
          r.jti in s.rowLock && s.rowLock[r.jti] == p && Alive(s, r.jti) && s.sessions[r.jti].owner == r.sub)
    && (stage.Scanned? || stage.Condemning? ==> forall sid | Offspring(s, r.sub, sid) :: sid in stage.ids)
    && (stage.Condemning? ==> Locks(s, p, stage.ids))
    && (stage.Rotated? ==> r.jti in s.rotatedBy && s.rotatedBy[r.jti] == p)
  }

  ghost predicate RefreshOk(s: Sys, p: Pid) {
    && (InRefresh(s, p) ==> StageOk(s, p, s.procs[p].r, s.procs[p].stage))
    && (InSweep(s, p, true) ==> Locks(s, p, s.procs[p].ids))
  }

  ghost predicate RefreshesOk(s: Sys) {
    && (forall p | p in s.procs :: RefreshOk(s, p))
    && (forall sid | sid in s.rotatedBy :: sid in s.sessions && s.sessions[sid].revoked)
  }

  // ----- Preservation: versions -----

  /** Neither versions nor anyone's claim to a user row moves. */
  ghost predicate VersionFrame(s: Sys, s': Sys) {
    && s'.rows == s.rows && s'.redis == s.redis && s'.past == s.past
    && forall p | p in s'.procs && s'.procs[p].Changing? ::
         && p in s.procs && s'.procs[p] == s.procs[p]
         && (s.procs[p].user in s.userLock && s.userLock[s.procs[p].user] == p ==>
             s.procs[p].user in s'.userLock && s'.userLock[s.procs[p].user] == p)
  }

  lemma ValidateFrame(s: Sys, step: Step)
    requires Enabled(s, step) && Validates(step) && !step.Announce?
    ensures VersionFrame(s, ExecValidate(s, step))
  {
  }

  lemma EndedFrame(s: Sys, s1: Sys, p: Pid, phase: Phase)
    requires s1.rows == s.rows && s1.redis == s.redis && s1.past == s.past && s1.userLock == s.userLock
        && s1.procs == s.procs
    requires !phase.Changing?
    ensures VersionFrame(s, Ended(s1, p, phase))
  {
  }

  lemma MovedFrame(s: Sys, s1: Sys, p: Pid, phase: Phase)
    requires s1.rows == s.rows && s1.redis == s.redis && s1.past == s.past && s1.userLock == s.userLock
        && s1.procs == s.procs
    requires !phase.Changing?
    ensures VersionFrame(s, Moved(s1, p, phase))
  {
  }

  lemma SelectFrame(s: Sys, p: Pid, r: Refresh, expired: bool)
    ensures VersionFrame(s, Selected(s, p, r, expired))
  {
    if Alive(s, r.jti) && s.sessions[r.jti].owner == r.sub {
      MovedFrame(s, s.(rowLock := s.rowLock[r.jti := p]), p, Refreshing(r, if expired then Retiring else Held));
    } else {
      EndedFrame(s, s, p, Failed);
      MovedFrame(s, s, p, Refreshing(r, Replaying));
    }
  }

  lemma OwnedFrame(s: Sys, p: Pid, r: Refresh)
    ensures VersionFrame(s, Owned(s, p, r))
  {
    if r.sub in s.rows && s.rows[r.sub].status == Status.Active {
      MovedFrame(s, s, p, Refreshing(r, Renewing(s.rows[r.sub].role, s.rows[r.sub].version)));
    } else {
      EndedFrame(s, s, p, Failed);
    }
  }

  lemma OpeningFrame(s: Sys, step: Step)
    requires Enabled(s, step)
    requires step.Ask? || step.Serialise? || step.Select? || step.DropKey? || step.ReadOwner? || step.Scan?
    ensures VersionFrame(s, ExecRefresh(s, step))
  {
    match step
    case Ask(p, r) => MovedFrame(s, s, p, Refreshing(r, Asked));
    case Serialise(p) =>
      var r := s.procs[p].r;
      MovedFrame(s, s.(advisory := s.advisory[LockKey(r.sub) := p]), p, Refreshing(r, Serialised));
    case Select(p, expired) => SelectFrame(s, p, s.procs[p].r, expired);
    case DropKey(p) => MovedFrame(s, s.(keys := s.keys - {s.procs[p].r.jti}), p, Refreshing(s.procs[p].r, Cleared));
    case ReadOwner(p) => OwnedFrame(s, p, s.procs[p].r);
    case Scan(p) => MovedFrame(s, s, p, Refreshing(s.procs[p].r, Scanned(AliveOf(s, s.procs[p].r.sub))));
  }

  lemma RotateFrame(s: Sys, p: Pid, r: Refresh, role: Role, version: int, sid: SessionId)
    ensures VersionFrame(s, Renewed(s, p, r, role, version, sid))
  {
    EndedFrame(s, Born(Buried(s, {r.jti}), sid, r.sub, role, version, true).(rotatedBy := s.rotatedBy[r.jti := p]),
               p, Refreshing(r, Rotated));
  }

  lemma CondemnFrame(s: Sys, p: Pid, r: Refresh, ids: set<SessionId>)
    ensures VersionFrame(s, Condemned(s, p, r, ids))
  {
    MovedFrame(s, Locked(s, p, StillAlive(s, ids)), p, Refreshing(r, Condemning(StillAlive(s, ids))));
  }

  lemma ClosingFrame(s: Sys, step: Step)
    requires Enabled(s, step) && (step.Rotate? || step.Retire? || step.RevokeAll? || step.CommitReplay?)
    ensures VersionFrame(s, ExecRefresh(s, step))
  {
    match step
    case Rotate(p, sid) => RotateFrame(s, p, s.procs[p].r, s.procs[p].stage.role, s.procs[p].stage.version, sid);
    case Retire(p) => EndedFrame(s, Buried(s, {s.procs[p].r.jti}), p, Done);
    case RevokeAll(p) => CondemnFrame(s, p, s.procs[p].r, s.procs[p].stage.ids);
    case CommitReplay(p) => EndedFrame(s, Buried(s, s.procs[p].stage.ids), p, Done);
  }

  lemma SweepFrame(s: Sys, step: Step)
    requires Enabled(s, step) && Sweeps(step)
    ensures VersionFrame(s, ExecSweep(s, step))
  {
    match step
    case Sweep(p, u) => MovedFrame(s, s, p, Sweeping(u, AliveOf(s, u), false));
    case Seize(p) =>
      var ids := StillAlive(s, s.procs[p].ids);
      MovedFrame(s, Locked(s, p, ids), p, Sweeping(s.procs[p].user, ids, true));
    case CommitSweep(p) => EndedFrame(s, Buried(s, s.procs[p].ids), p, Done);
  }

  lemma OtherFrame(s: Sys, step: Step)
    requires Enabled(s, step) && !Validates(step) && !Refreshes(step) && !Changes(step) && !Sweeps(step)
    ensures VersionFrame(s, ExecOther(s, step))
  {
  }

  lemma Framed(s: Sys, step: Step)
    requires Enabled(s, step) && !Changes(step) && !step.Announce?
    ensures VersionFrame(s, Exec(s, step))
  {
    if Validates(step) { ValidateFrame(s, step); }
    else if step.Rotate? || step.Retire? || step.RevokeAll? || step.CommitReplay? { ClosingFrame(s, step); }
    else if Refreshes(step) { OpeningFrame(s, step); }
    else if Sweeps(step) { SweepFrame(s, step); }
    else { OtherFrame(s, step); }
  }

  lemma FramedVersions(s: Sys, s': Sys)
    requires VersionFrame(s, s') && VersionsOk(s)
    ensures VersionsOk(s')
  {
    forall u ensures VersionOk(s', u) { assert VersionOk(s, u); }
    forall p | p in s'.procs ensures ChangeOk(s', p) {
      if s'.procs[p].Changing? { assert ChangeOk(s, p); }
    }
  }

  lemma RaisedVersions(s: Sys, u: UserId, version: int)
    requires VersionsOk(s)
    requires if u in s.rows
             then version <= s.rows[u].version + 1 && (u !in s.redis ==> s.rows[u].version <= version)
             else version <= 2
    ensures VersionsOk(Raised(s, u, version))
  {
    var s' := Raised(s, u, version);
    assert VersionOk(s, u);
    forall v ensures VersionOk(s', v) { assert VersionOk(s, v); }
    forall p | p in s'.procs ensures ChangeOk(s', p) { assert ChangeOk(s, p); }
  }

  /** A version moves only when its holder commits, and Redis was told before. */
  lemma CommitKeepsVersions(s: Sys, p: Pid)
    requires VersionsOk(s) && InChange(s, p, true)
    ensures VersionsOk(Ended(Committed(s, s.procs[p].user, s.procs[p].row), p, Done))
  {
    var u, row := s.procs[p].user, s.procs[p].row;
    var s' := Ended(Committed(s, u, row), p, Done);
    assert ChangeOk(s, p);
    forall v ensures VersionOk(s', v) { assert VersionOk(s, u) && VersionOk(s, v); }
    forall q | q in s'.procs ensures ChangeOk(s', q) {
      if q in s.procs && s.procs[q].Changing? { assert ChangeOk(s, q); }
    }
  }

  lemma LockKeepsVersions(s: Sys, p: Pid, u: UserId, row: Row)
    requires VersionsOk(s) && p !in s.procs && u !in s.userLock
    requires row.version == if u in s.rows then s.rows[u].version + 1 else 2
    ensures VersionsOk(Moved(s.(userLock := s.userLock[u := p]), p, Changing(u, row, false)))
  {
    var s' := Moved(s.(userLock := s.userLock[u := p]), p, Changing(u, row, false));
    forall v ensures VersionOk(s', v) { assert VersionOk(s, v); }
    forall q | q in s'.procs ensures ChangeOk(s', q) { assert q in s.procs ==> ChangeOk(s, q); }
  }

  lemma StampKeepsVersions(s: Sys, p: Pid, u: UserId, row: Row)
    requires VersionsOk(s) && p in s.procs && s.procs[p] == Changing(u, row, false)
    requires u in s.redis && s.redis[u] >= row.version
    ensures VersionsOk(Moved(s, p, Changing(u, row, true)))
  {
    var s' := Moved(s, p, Changing(u, row, true));
    forall v ensures VersionOk(s', v) { assert VersionOk(s, v); }
    forall q | q in s'.procs ensures ChangeOk(s', q) { assert ChangeOk(s, q); }
  }

  lemma PublishKeepsVersions(s: Sys, p: Pid, u: UserId, row: Row)
    requires VersionsOk(s) && p in s.procs && s.procs[p] == Changing(u, row, false)
    ensures VersionsOk(Moved(Raised(s, u, row.version), p, Changing(u, row, true)))
  {
    assert ChangeOk(s, p) && VersionOk(s, u);
    RaisedVersions(s, u, row.version);
    StampKeepsVersions(Raised(s, u, row.version), p, u, row);
  }

  lemma NewUserKeepsVersions(s: Sys, u: UserId)
    requires VersionsOk(s) && u !in s.rows && u !in s.redis && u !in s.userLock
    ensures VersionsOk(Committed(s, u, Row(Role.User, Status.Active, 1)))
  {
    var s' := Committed(s, u, Row(Role.User, Status.Active, 1));
    forall v ensures VersionOk(s', v) { assert VersionOk(s, v); }
    forall q | q in s'.procs ensures ChangeOk(s', q) { assert ChangeOk(s, q); }
  }

  lemma ChangeKeepsVersions(s: Sys, step: Step)
    requires Enabled(s, step) && VersionsOk(s) && Changes(step)
    ensures VersionsOk(ExecChange(s, step))
  {
    match step
    case NewUser(u) => NewUserKeepsVersions(s, u);
    case Update(p, u, edit) => LockKeepsVersions(s, p, u, Edited(s.rows[u], edit));
    case Insert(p, u) => LockKeepsVersions(s, p, u, Row(Role.SuperAdmin, Status.Active, 2));
    case Publish(p) => PublishKeepsVersions(s, p, s.procs[p].user, s.procs[p].row);
    case CommitChange(p) => CommitKeepsVersions(s, p);
  }

  /** A validation publishes only a version that was once committed. */
  lemma AnnounceKeepsVersions(s: Sys, p: Pid)
    requires VersionsOk(s) && PastOk(s) && Checks(s, p, SawSession) && PhaseOk(s, s.procs[p])
    ensures VersionsOk(Moved(Raised(s, s.procs[p].t.sub, s.procs[p].t.av), p, Checking(s.procs[p].t, Announced)))
  {
    var t := s.procs[p].t;
    assert EntryOk(s, (t.sub, t.av)) && VersionOk(s, t.sub);
    RaisedVersions(s, t.sub, t.av);
    var s1 := Raised(s, t.sub, t.av);
    FramedVersions(s1, Moved(s1, p, Checking(t, Announced)));
  }

  lemma VersionsKept(s: Sys, step: Step)
    requires Enabled(s, step) && VersionsOk(s) && PastOk(s)
    requires step.Announce? ==> PhaseOk(s, s.procs[step.p])
    ensures VersionsOk(Exec(s, step))
  {
    if Changes(step) {
      ChangeKeepsVersions(s, step);
    } else if step.Announce? {
      AnnounceKeepsVersions(s, step.p);
    } else {
      Framed(s, step);
      FramedVersions(s, Exec(s, step));
    }
  }

  ghost predicate PastGrows(s: Sys, s': Sys) {
    forall k | k in s.past :: k in s'.past && s'.past[k] == s.past[k]
  }

  lemma CommitKeepsPast(s: Sys, u: UserId, row: Row)
    requires PastOk(s) && row.version >= 1 && (u in s.rows ==> row.version > s.rows[u].version)
    ensures PastOk(Committed(s, u, row)) && PastGrows(s, Committed(s, u, row))
  {
    var s' := Committed(s, u, row);
    forall k | k in s'.past ensures EntryOk(s', k) { assert k in s.past ==> EntryOk(s, k); }
    forall k | k in s.past ensures k in s'.past && s'.past[k] == s.past[k] { assert EntryOk(s, k); }
    forall v | v in s'.rows ensures HistoryOk(s', v) { assert v in s.rows ==> HistoryOk(s, v); }
  }

  lemma SamePast(s: Sys, s': Sys)
    requires PastOk(s) && s'.rows == s.rows && s'.past == s.past
    ensures PastOk(s') && PastGrows(s, s')
  {
    forall k | k in s'.past ensures EntryOk(s', k) { assert EntryOk(s, k); }
    forall v | v in s'.rows ensures HistoryOk(s', v) { assert HistoryOk(s, v); }
  }

  lemma ChangeKeepsPast(s: Sys, step: Step)
    requires Enabled(s, step) && Changes(step) && VersionsOk(s) && PastOk(s)
    ensures PastOk(ExecChange(s, step)) && PastGrows(s, ExecChange(s, step))
  {
    match step
    case NewUser(u) => CommitKeepsPast(s, u, Row(Role.User, Status.Active, 1));
    case CommitChange(p) =>
      var u, row := s.procs[p].user, s.procs[p].row;
      assert ChangeOk(s, p);
      assert u in s.rows ==> HistoryOk(s, u) && EntryOk(s, (u, s.rows[u].version));
      CommitKeepsPast(s, u, row);
      SamePast(Committed(s, u, row), ExecChange(s, step));
    case Update(_, _, _) => SamePast(s, ExecChange(s, step));
    case Insert(_, _) => SamePast(s, ExecChange(s, step));
    case Publish(_) => SamePast(s, ExecChange(s, step));
  }

  lemma RowsUntouched(s: Sys, step: Step)
    requires Enabled(s, step) && !Changes(step)
    ensures Exec(s, step).rows == s.rows && Exec(s, step).past == s.past
  {
    if step.Announce? {
      var t := s.procs[step.p].t;
      assert Exec(s, step) == Moved(Raised(s, t.sub, t.av), step.p, Checking(t, Announced));
    } else {
      Framed(s, step);
    }
  }

  lemma UntouchedKeepsPast(s: Sys, step: Step)
    requires Enabled(s, step) && !Changes(step) && PastOk(s)
    ensures PastOk(Exec(s, step)) && PastGrows(s, Exec(s, step))
  {
    RowsUntouched(s, step);
    SamePast(s, Exec(s, step));
  }

  /** A version names one role and one status for good. */
  lemma PastKept(s: Sys, step: Step)
    requires Enabled(s, step) && VersionsOk(s) && PastOk(s)
    ensures PastOk(Exec(s, step)) && PastGrows(s, Exec(s, step))
  {
    if Changes(step) {
      ChangeKeepsPast(s, step);
      assert Exec(s, step) == ExecChange(s, step);
    } else {
      UntouchedKeepsPast(s, step);
    }
  }

  // ----- Preservation: tokens and keys -----

  /** Histories only grow and a session keeps its owner. */
  ghost predicate Grows(s: Sys, s': Sys) {
    && PastGrows(s, s') && s.minted <= s'.minted && s.tickets <= s'.tickets
    && (forall sid | sid in s.sessions :: sid in s'.sessions && s'.sessions[sid].owner == s.sessions[sid].owner)
    && (forall sid | sid in s.births :: sid in s'.births && s'.births[sid] == s.births[sid])
  }

  lemma GrownTokens(s: Sys, s': Sys)
    requires Grows(s, s') && TokensOk(s)
    requires forall t | t in s'.minted && t !in s.minted :: TokenOk(s', t)
    requires forall r | r in s'.tickets && r !in s.tickets :: TicketOk(s', r)
    requires forall sid | sid in s'.births && sid !in s.births :: BirthOk(s', sid)
    requires forall p | p in s'.procs && !(p in s.procs && s'.procs[p] == s.procs[p]) :: PhaseOk(s', s'.procs[p])
    requires forall sid | sid in s'.keys && !(sid in s.keys && s'.keys[sid] == s.keys[sid]) :: KeyOk(s', sid)
    ensures TokensOk(s')
  {
    forall t | t in s'.minted ensures TokenOk(s', t) { assert t in s.minted ==> TokenOk(s, t); }
    forall sid | sid in s'.births ensures BirthOk(s', sid) { assert sid in s.births ==> BirthOk(s, sid); }
    forall p | p in s'.procs ensures PhaseOk(s', s'.procs[p]) { assert p in s.procs ==> PhaseOk(s, s.procs[p]); }
    forall sid | sid in s'.keys ensures KeyOk(s', sid) { assert sid in s.keys ==> KeyOk(s, sid); }
  }

  /** A new session under a fresh id brings one token, made from a row that was committed. */
  lemma BornTokens(s: Sys, sid: SessionId, u: UserId, role: Role, version: int, renewed: bool)
    requires TokensOk(s) && sid !in s.sessions && WasRow(s, u, version, role)
    ensures Grows(s, Born(s, sid, u, role, version, renewed)) && TokensOk(Born(s, sid, u, role, version, renewed))
  {
    var s' := Born(s, sid, u, role, version, renewed);
    forall x | x in s.births ensures x != sid { assert BirthOk(s, x) && TokenOk(s, s.births[x]); }
    GrownTokens(s, s');
  }

  lemma CommittedTokens(s: Sys, s': Sys)
    requires TokensOk(s) && PastGrows(s, s')
    requires s'.sessions == s.sessions && s'.births == s.births && s'.minted == s.minted && s'.tickets == s.tickets
    requires s'.procs == s.procs && s'.keys == s.keys
    ensures Grows(s, s') && TokensOk(s')
  {
    GrownTokens(s, s');
  }

  lemma BuriedTokens(s: Sys, ids: set<SessionId>)
    requires TokensOk(s)
    ensures Grows(s, Buried(s, ids)) && TokensOk(Buried(s, ids))
  {
    GrownTokens(s, Buried(s, ids));
  }

  lemma KeyedTokens(s: Sys, keys: map<SessionId, UserId>)
    requires TokensOk(s)
    requires forall sid | sid in keys && !(sid in s.keys && keys[sid] == s.keys[sid]) :: KeyOk(s.(keys := keys), sid)
    ensures Grows(s, s.(keys := keys)) && TokensOk(s.(keys := keys))
  {
    GrownTokens(s, s.(keys := keys));
  }

  /** Everything the tokens depend on is as before, but for the phase of one process. */
  lemma SteppedTokens(s: Sys, s': Sys, p: Pid, phase: Phase)
    requires TokensOk(s) && PhaseOk(s, phase) && s'.procs == s.procs[p := phase]
    requires s'.sessions == s.sessions && s'.births == s.births && s'.minted == s.minted && s'.tickets == s.tickets
    requires s'.past == s.past && s'.keys == s.keys
    ensures Grows(s, s') && TokensOk(s')
  {
    GrownTokens(s, s');
  }

  /** What a fast answer rests on: the key of a session vouches for its one token. */
  lemma ConsultedOk(s: Sys, t: Access)
    requires TokensOk(s) && t in s.minted
    ensures PhaseOk(s, Checking(t, Consulted(s, t)))
  {
    assert TokenOk(s, t);
    if t.sid in s.keys { assert KeyOk(s, t.sid); }
  }

  lemma FillKeepsTokens(s: Sys, p: Pid, t: Access)
    requires TokensOk(s) && t in s.minted && WasActive(s, t)
    ensures var s' := Moved(s.(keys := s.keys[t.sid := t.sub]), p, Checking(t, Accepted)); Grows(s, s') && TokensOk(s')
  {
    assert TokenOk(s, t);
    var s1 := s.(keys := s.keys[t.sid := t.sub]);
    KeyedTokens(s, s.keys[t.sid := t.sub]);
    SteppedTokens(s1, Moved(s1, p, Checking(t, Accepted)), p, Checking(t, Accepted));
  }

  lemma CurrentWasActive(s: Sys, t: Access)
    requires PastOk(s) && Current(s, t)
    ensures WasActive(s, t)
  {
    assert HistoryOk(s, t.sub);
  }

  lemma CheckKeepsTokens(s: Sys, s1: Sys, p: Pid, t: Access, check: Check)
    requires TokensOk(s) && t in s.minted && (Trusting(check) ==> WasActive(s, t))
    requires s1 == s.(redis := s1.redis)
    ensures Grows(s, Moved(s1, p, Checking(t, check))) && TokensOk(Moved(s1, p, Checking(t, check)))
  {
    SteppedTokens(s, Moved(s1, p, Checking(t, check)), p, Checking(t, check));
  }

  lemma UserReadKeepsTokens(s: Sys, p: Pid)
    requires Checks(s, p, Missed) && PhaseOk(s, s.procs[p]) && PastOk(s) && TokensOk(s)
    ensures Grows(s, ExecValidate(s, ReadUser(p))) && TokensOk(ExecValidate(s, ReadUser(p)))
  {
    var t := s.procs[p].t;
    if Current(s, t) { CurrentWasActive(s, t); }
    CheckKeepsTokens(s, s, p, t, if Current(s, t) then SawUser else Refused);
  }

  lemma ReadKeepsTokens(s: Sys, step: Step)
    requires Enabled(s, step) && PastOk(s) && TokensOk(s)
    requires step.Consult? || step.ReadUser? || step.ReadSession?
    ensures Grows(s, ExecValidate(s, step)) && TokensOk(ExecValidate(s, step))
  {
    var p := step.p;
    assert PhaseOk(s, s.procs[p]);
    var t := s.procs[p].t;
    match step
    case Consult(_) =>
      ConsultedOk(s, t);
      CheckKeepsTokens(s, s, p, t, Consulted(s, t));
    case ReadUser(_) => UserReadKeepsTokens(s, p);
    case ReadSession(_, expired) =>
      CheckKeepsTokens(s, s, p, t, ExecValidate(s, step).procs[p].check);
  }

  lemma WriteKeepsTokens(s: Sys, step: Step)
    requires Enabled(s, step) && TokensOk(s)
    requires step.Present? || step.Announce? || step.Fill?
    ensures Grows(s, ExecValidate(s, step)) && TokensOk(ExecValidate(s, step))
  {
    var p := step.p;
    match step
    case Present(_, t) => CheckKeepsTokens(s, s, p, t, Presented);
    case Announce(_) =>
      assert PhaseOk(s, s.procs[p]);
      CheckKeepsTokens(s, Raised(s, s.procs[p].t.sub, s.procs[p].t.av), p, s.procs[p].t, Announced);
    case Fill(_) =>
      assert PhaseOk(s, s.procs[p]);
      FillKeepsTokens(s, p, s.procs[p].t);
  }

  lemma RenewKeepsTokens(s: Sys, p: Pid, r: Refresh, role: Role, version: int, sid: SessionId)
    requires TokensOk(s) && r in s.tickets && sid !in s.sessions && WasRow(s, r.sub, version, role)
    ensures Grows(s, Renewed(s, p, r, role, version, sid)) && TokensOk(Renewed(s, p, r, role, version, sid))
  {
    var s1 := Buried(s, {r.jti});
    BuriedTokens(s, {r.jti});
    var s2 := Born(s1, sid, r.sub, role, version, true);
    BornTokens(s1, sid, r.sub, role, version, true);
    SteppedTokens(s2, Renewed(s, p, r, role, version, sid), p, Refreshing(r, Rotated));
  }

  lemma BurialKeepsTokens(s: Sys, p: Pid, ids: set<SessionId>)
    requires TokensOk(s)
    ensures Grows(s, Ended(Buried(s, ids), p, Done)) && TokensOk(Ended(Buried(s, ids), p, Done))
  {
    BuriedTokens(s, ids);
    SteppedTokens(Buried(s, ids), Ended(Buried(s, ids), p, Done), p, Done);
  }

  lemma StageKeepsTokens(s: Sys, s1: Sys, p: Pid, r: Refresh, stage: Stage)
    requires TokensOk(s) && r in s.tickets && (stage.Renewing? ==> WasRow(s, r.sub, stage.version, stage.role))
    requires s1 == s.(advisory := s1.advisory, rowLock := s1.rowLock)
    ensures Grows(s, Moved(s1, p, Refreshing(r, stage))) && TokensOk(Moved(s1, p, Refreshing(r, stage)))
  {
    SteppedTokens(s, Moved(s1, p, Refreshing(r, stage)), p, Refreshing(r, stage));
  }

  lemma FailureKeepsTokens(s: Sys, p: Pid)
    requires TokensOk(s)
    ensures Grows(s, Ended(s, p, Failed)) && TokensOk(Ended(s, p, Failed))
  {
    SteppedTokens(s, Ended(s, p, Failed), p, Failed);
  }

  lemma OwnedKeepsTokens(s: Sys, p: Pid, r: Refresh)
    requires PastOk(s) && TokensOk(s) && r in s.tickets
    ensures Grows(s, Owned(s, p, r)) && TokensOk(Owned(s, p, r))
  {
    if r.sub in s.rows && s.rows[r.sub].status == Status.Active {
      assert HistoryOk(s, r.sub);
      StageKeepsTokens(s, s, p, r, Renewing(s.rows[r.sub].role, s.rows[r.sub].version));
    } else {
      FailureKeepsTokens(s, p);
    }
  }

  lemma SelectKeepsTokens(s: Sys, p: Pid, r: Refresh, expired: bool)
    requires TokensOk(s) && r in s.tickets
    ensures Grows(s, Selected(s, p, r, expired)) && TokensOk(Selected(s, p, r, expired))
  {
    if Alive(s, r.jti) && s.sessions[r.jti].owner == r.sub {
      StageKeepsTokens(s, s.(rowLock := s.rowLock[r.jti := p]), p, r, if expired then Retiring else Held);
    } else if expired && !Alive(s, r.jti) {
      FailureKeepsTokens(s, p);
    } else {
      StageKeepsTokens(s, s, p, r, Replaying);
    }
  }

  lemma DropKeepsTokens(s: Sys, p: Pid, r: Refresh)
    requires TokensOk(s) && r in s.tickets
    ensures var s' := Moved(s.(keys := s.keys - {r.jti}), p, Refreshing(r, Cleared)); Grows(s, s') && TokensOk(s')
  {
    KeyedTokens(s, s.keys - {r.jti});
    StageKeepsTokens(s.(keys := s.keys - {r.jti}), s.(keys := s.keys - {r.jti}), p, r, Cleared);
  }

  lemma EarlyRefreshKeepsTokens(s: Sys, step: Step)
    requires Enabled(s, step) && PastOk(s) && TokensOk(s)
    requires step.Serialise? || step.Select? || step.DropKey? || step.ReadOwner? || step.Scan?
    ensures Grows(s, ExecRefresh(s, step)) && TokensOk(ExecRefresh(s, step))
  {
    var p := step.p;
    assert PhaseOk(s, s.procs[p]);
    var r := s.procs[p].r;
    match step
    case Serialise(_) => StageKeepsTokens(s, s.(advisory := s.advisory[LockKey(r.sub) := p]), p, r, Serialised);
    case Select(_, expired) => SelectKeepsTokens(s, p, r, expired);
    case DropKey(_) => DropKeepsTokens(s, p, r);
    case ReadOwner(_) => OwnedKeepsTokens(s, p, r);
    case Scan(_) => StageKeepsTokens(s, s, p, r, Scanned(AliveOf(s, r.sub)));
  }

  lemma CondemnKeepsTokens(s: Sys, p: Pid, r: Refresh, ids: set<SessionId>)
    requires TokensOk(s) && r in s.tickets
    ensures Grows(s, Condemned(s, p, r, ids)) && TokensOk(Condemned(s, p, r, ids))
  {
    StageKeepsTokens(s, Locked(s, p, StillAlive(s, ids)), p, r, Condemning(StillAlive(s, ids)));
  }

  lemma SweepKeepsTokens(s: Sys, step: Step)
    requires Enabled(s, step) && Sweeps(step) && TokensOk(s)
    ensures Grows(s, ExecSweep(s, step)) && TokensOk(ExecSweep(s, step))
  {
    if step.CommitSweep? {
      BurialKeepsTokens(s, step.p, s.procs[step.p].ids);
    } else {
      SteppedTokens(s, ExecSweep(s, step), step.p, ExecSweep(s, step).procs[step.p]);
    }
  }

  lemma LateRefreshKeepsTokens(s: Sys, step: Step)
    requires Enabled(s, step) && TokensOk(s)
    requires step.Rotate? || step.Retire? || step.RevokeAll? || step.CommitReplay?
    ensures Grows(s, ExecRefresh(s, step)) && TokensOk(ExecRefresh(s, step))
  {
    var p := step.p;
    assert PhaseOk(s, s.procs[p]);
    var r := s.procs[p].r;
    match step
    case Rotate(_, sid) => RenewKeepsTokens(s, p, r, s.procs[p].stage.role, s.procs[p].stage.version, sid);
    case Retire(_) => BurialKeepsTokens(s, p, {r.jti});
    case RevokeAll(_) => CondemnKeepsTokens(s, p, r, s.procs[p].stage.ids);
    case CommitReplay(_) => BurialKeepsTokens(s, p, s.procs[p].stage.ids);
  }

  lemma ChangeKeepsTokens(s: Sys, step: Step)
    requires Enabled(s, step) && Changes(step) && TokensOk(s)
    requires PastGrows(s, ExecChange(s, step))
    ensures Grows(s, ExecChange(s, step)) && TokensOk(ExecChange(s, step))
  {
    var s' := ExecChange(s, step);
    match step
    case NewUser(_) => CommittedTokens(s, s');
    case CommitChange(p) =>
      var s1 := Committed(s, s.procs[p].user, s.procs[p].row);
      CommittedTokens(s, s1);
      SteppedTokens(s1, s', p, Done);
    case Update(p, _, _) => SteppedTokens(s, s', p, s'.procs[p]);
    case Insert(p, _) => SteppedTokens(s, s', p, s'.procs[p]);
    case Publish(p) => SteppedTokens(s, s', p, s'.procs[p]);
  }

  lemma OtherKeepsTokens(s: Sys, step: Step)
    requires Enabled(s, step) && !Validates(step) && !Refreshes(step) && !Changes(step) && !Sweeps(step)
    requires PastOk(s) && TokensOk(s)
    ensures Grows(s, ExecOther(s, step)) && TokensOk(ExecOther(s, step))
  {
    var s' := ExecOther(s, step);
    match step
    case Open(p, u) =>
      assert HistoryOk(s, u);
      SteppedTokens(s, s', p, s'.procs[p]);
    case Mint(p, sid) =>
      assert PhaseOk(s, s.procs[p]);
      var s1 := Born(s, sid, s.procs[p].user, s.procs[p].role, s.procs[p].version, false);
      BornTokens(s, sid, s.procs[p].user, s.procs[p].role, s.procs[p].version, false);
      SteppedTokens(s1, s', p, Done);
    case Abort(p) => SteppedTokens(s, s', p, Failed);
    case LoseKey(sid) => KeyedTokens(s, s.keys - {sid});
    case RevokeRow(sid) => BuriedTokens(s, {sid});
  }

  lemma TokensKept(s: Sys, step: Step)
    requires Enabled(s, step) && PastOk(s) && TokensOk(s) && PastGrows(s, Exec(s, step))
    ensures Grows(s, Exec(s, step)) && TokensOk(Exec(s, step))
  {
    if step.Consult? || step.ReadUser? || step.ReadSession? {
      ReadKeepsTokens(s, step);
    } else if Validates(step) {
      WriteKeepsTokens(s, step);
    } else if step.Ask? {
      StageKeepsTokens(s, s, step.p, step.ticket, Asked);
    } else if step.Serialise? || step.Select? || step.DropKey? || step.ReadOwner? || step.Scan? {
      EarlyRefreshKeepsTokens(s, step);
    } else if Refreshes(step) {
      LateRefreshKeepsTokens(s, step);
    } else if Changes(step) {
      ChangeKeepsTokens(s, step);
    } else if Sweeps(step) {
      SweepKeepsTokens(s, step);
    } else {
      OtherKeepsTokens(s, step);
    }
  }

  // ----- Preservation: refreshes -----

  ghost predicate SessionKept(s: Sys, s': Sys, sid: SessionId, who: int) {
    sid in s.sessions ==>
      && sid in s'.sessions && s'.sessions[sid].owner == s.sessions[sid].owner
      && s'.sessions[sid].renewed == s.sessions[sid].renewed
      && (s.sessions[sid].revoked ==> s'.sessions[sid].revoked)
      && (sid in s.rowLock && s.rowLock[sid] != who ==> s'.sessions[sid].revoked == s.sessions[sid].revoked)
  }

  ghost predicate SessionNew(s: Sys, s': Sys, sid: SessionId, who: int) {
    sid in s'.sessions && sid !in s.sessions && s'.sessions[sid].renewed ==>
      LockKey(s'.sessions[sid].owner) in s.advisory && s.advisory[LockKey(s'.sessions[sid].owner)] == who
  }

  /** A step of one process (nobody's when who is negative) respects everyone else's locks, and
      only a process holding the owner's advisory lock adds a renewed session. */
  ghost predicate Respects(s: Sys, s': Sys, who: int) {
    && (forall p | p in s'.procs && p != who :: p in s.procs && s'.procs[p] == s.procs[p])
    && (forall k | k in s.advisory && s.advisory[k] != who :: k in s'.advisory && s'.advisory[k] == s.advisory[k])
    && (forall sid | sid in s.rowLock && s.rowLock[sid] != who ::
      sid in s'.rowLock && s'.rowLock[sid] == s.rowLock[sid])
    && (forall sid :: SessionKept(s, s', sid, who) && SessionNew(s, s', sid, who))
    && (forall sid | sid in s.rotatedBy :: sid in s'.rotatedBy && s'.rotatedBy[sid] == s.rotatedBy[sid])
  }

  lemma OthersKept(s: Sys, s': Sys, who: int, p: Pid)
    requires Respects(s, s', who) && RefreshOk(s, p) && p in s'.procs && p != who
    ensures RefreshOk(s', p)
  {
    if InRefresh(s', p) {
      var r, stage := s.procs[p].r, s.procs[p].stage;
      assert StageOk(s, p, r, stage);
      if Holding(stage) { assert SessionKept(s, s', r.jti, who); }
      if stage.Scanned? || stage.Condemning? {
        forall sid | Offspring(s', r.sub, sid) ensures sid in stage.ids {
          assert SessionKept(s, s', sid, who) && SessionNew(s, s', sid, who);
        }
      }
    }
  }

  lemma RefreshesFrom(s: Sys, s': Sys, who: int)
    requires Respects(s, s', who) && RefreshesOk(s)
    requires who >= 0 && who in s'.procs ==> RefreshOk(s', who)
    requires forall sid | sid in s'.rotatedBy && sid !in s.rotatedBy :: sid in s'.sessions && s'.sessions[sid].revoked
    ensures RefreshesOk(s')
  {
    forall p | p in s'.procs ensures RefreshOk(s', p) {
      if p != who { OthersKept(s, s', who, p); }
    }
    forall sid | sid in s'.rotatedBy ensures sid in s'.sessions && s'.sessions[sid].revoked {
      assert SessionKept(s, s', sid, who);
    }
  }

  /** Steps that leave sessions alone and release at most their own locks. */
  lemma CalmKeeps(s: Sys, s': Sys, who: int)
    requires RefreshesOk(s) && s'.sessions == s.sessions && s'.rotatedBy == s.rotatedBy
    requires forall p | p in s'.procs && p != who :: p in s.procs && s'.procs[p] == s.procs[p]
    requires who >= 0 && who in s'.procs ==> RefreshOk(s', who)
    requires forall k | k in s.advisory && s.advisory[k] != who :: k in s'.advisory && s'.advisory[k] == s.advisory[k]
    requires forall sid | sid in s.rowLock && s.rowLock[sid] != who ::
        sid in s'.rowLock && s'.rowLock[sid] == s.rowLock[sid]
    ensures RefreshesOk(s')
  {
    RefreshesFrom(s, s', who);
  }

  lemma ValidateKeepsRefreshes(s: Sys, step: Step)
    requires Enabled(s, step) && Validates(step) && RefreshesOk(s)
    ensures RefreshesOk(ExecValidate(s, step))
  {
    CalmKeeps(s, ExecValidate(s, step), step.p);
  }

  lemma ChangeKeepsRefreshes(s: Sys, step: Step)
    requires Enabled(s, step) && Changes(step) && RefreshesOk(s)
    ensures RefreshesOk(ExecChange(s, step))
  {
    CalmKeeps(s, ExecChange(s, step), if step.NewUser? then -1 else step.p);
  }

  /** Rows are buried by whoever holds their locks, or while nobody does. */
  lemma BurialRespects(s: Sys, ids: set<SessionId>, who: int)
    requires forall sid | sid in ids && sid in s.rowLock :: s.rowLock[sid] == who
    ensures Respects(s, Buried(s, ids), who)
  {
  }

  lemma EndRespects(s: Sys, s1: Sys, p: Pid, phase: Phase)
    requires Respects(s, s1, p) && s1.procs == s.procs
    ensures Respects(s, Ended(s1, p, phase), p)
  {
    forall sid ensures SessionKept(s, Ended(s1, p, phase), sid, p) && SessionNew(s, Ended(s1, p, phase), sid, p) {
      assert SessionKept(s, s1, sid, p) && SessionNew(s, s1, sid, p);
    }
  }

  lemma MintKeepsRefreshes(s: Sys, p: Pid, sid: SessionId)
    requires Enabled(s, Mint(p, sid)) && RefreshesOk(s)
    ensures RefreshesOk(ExecOther(s, Mint(p, sid)))
  {
    RefreshesFrom(s, ExecOther(s, Mint(p, sid)), p);
  }

  lemma RevokeRowKeepsRefreshes(s: Sys, sid: SessionId)
    requires sid !in s.rowLock && RefreshesOk(s)
    ensures RefreshesOk(Buried(s, {sid}))
  {
    BurialRespects(s, {sid}, -1);
    RefreshesFrom(s, Buried(s, {sid}), -1);
  }

  lemma OtherKeepsRefreshes(s: Sys, step: Step)
    requires Enabled(s, step) && RefreshesOk(s)
    requires !Validates(step) && !Refreshes(step) && !Changes(step) && !Sweeps(step)
    ensures RefreshesOk(ExecOther(s, step))
  {
    var s' := ExecOther(s, step);
    match step
    case Open(p, _) => CalmKeeps(s, s', p);
    case Abort(p) => CalmKeeps(s, s', p);
    case LoseKey(_) => CalmKeeps(s, s', -1);
    case Mint(p, sid) => MintKeepsRefreshes(s, p, sid);
    case RevokeRow(sid) => RevokeRowKeepsRefreshes(s, sid);
  }

  lemma StageKeeps(s: Sys, s1: Sys, p: Pid, r: Refresh, stage: Stage)
    requires RefreshesOk(s) && s1 == s.(advisory := s1.advisory, rowLock := s1.rowLock, keys := s1.keys)
    requires forall k | k in s.advisory && s.advisory[k] != p :: k in s1.advisory && s1.advisory[k] == s.advisory[k]
    requires forall sid | sid in s.rowLock && s.rowLock[sid] != p ::
        sid in s1.rowLock && s1.rowLock[sid] == s.rowLock[sid]
    requires StageOk(s1, p, r, stage)
    ensures RefreshesOk(Moved(s1, p, Refreshing(r, stage)))
  {
    assert StageOk(Moved(s1, p, Refreshing(r, stage)), p, r, stage);
    CalmKeeps(s, Moved(s1, p, Refreshing(r, stage)), p);
  }

  lemma FailureKeeps(s: Sys, p: Pid)
    requires RefreshesOk(s)
    ensures RefreshesOk(Ended(s, p, Failed))
  {
    CalmKeeps(s, Ended(s, p, Failed), p);
  }

  lemma OwnedKeeps(s: Sys, p: Pid, r: Refresh)
    requires RefreshesOk(s) && StageOk(s, p, r, Cleared)
    ensures RefreshesOk(Owned(s, p, r))
  {
    if r.sub in s.rows && s.rows[r.sub].status == Status.Active {
      StageKeeps(s, s, p, r, Renewing(s.rows[r.sub].role, s.rows[r.sub].version));
    } else {
      FailureKeeps(s, p);
    }
  }

  lemma EarlyRefreshKeeps(s: Sys, step: Step)
    requires Enabled(s, step) && RefreshesOk(s)
    requires step.Ask? || step.Serialise? || step.DropKey? || step.ReadOwner? || step.Scan?
    ensures RefreshesOk(ExecRefresh(s, step))
  {
    var p := step.p;
    match step
    case Ask(_, r) => StageKeeps(s, s, p, r, Asked);
    case Serialise(_) =>
      var r := s.procs[p].r;
      StageKeeps(s, s.(advisory := s.advisory[LockKey(r.sub) := p]), p, r, Serialised);
    case DropKey(_) =>
      var r := s.procs[p].r;
      assert RefreshOk(s, p);
      StageKeeps(s, s.(keys := s.keys - {r.jti}), p, r, Cleared);
    case ReadOwner(_) =>
      assert RefreshOk(s, p);
      OwnedKeeps(s, p, s.procs[p].r);
    case Scan(_) =>
      assert RefreshOk(s, p);
      StageKeeps(s, s, p, s.procs[p].r, Scanned(AliveOf(s, s.procs[p].r.sub)));
  }

  lemma SelectKeeps(s: Sys, p: Pid, r: Refresh, expired: bool)
    requires RefreshesOk(s) && StageOk(s, p, r, Serialised) && (Alive(s, r.jti) ==> r.jti !in s.rowLock)
    ensures RefreshesOk(Selected(s, p, r, expired))
  {
    if Alive(s, r.jti) && s.sessions[r.jti].owner == r.sub {
      StageKeeps(s, s.(rowLock := s.rowLock[r.jti := p]), p, r, if expired then Retiring else Held);
    } else if expired && !Alive(s, r.jti) {
      FailureKeeps(s, p);
    } else {
      StageKeeps(s, s, p, r, Replaying);
    }
  }

  lemma CondemnKeeps(s: Sys, p: Pid, r: Refresh, ids: set<SessionId>)
    requires RefreshesOk(s) && StageOk(s, p, r, Scanned(ids)) && Unlocked(s, ids)
    ensures RefreshesOk(Condemned(s, p, r, ids))
  {
    StageKeeps(s, Locked(s, p, StillAlive(s, ids)), p, r, Condemning(StillAlive(s, ids)));
  }

  lemma SweepKeeps(s: Sys, step: Step)
    requires Enabled(s, step) && Sweeps(step) && RefreshesOk(s)
    ensures RefreshesOk(ExecSweep(s, step))
  {
    if step.CommitSweep? {
      assert RefreshOk(s, step.p);
      BurialKeeps(s, step.p, s.procs[step.p].ids);
    } else {
      CalmKeeps(s, ExecSweep(s, step), step.p);
    }
  }

  lemma BurialKeeps(s: Sys, p: Pid, ids: set<SessionId>)
    requires RefreshesOk(s) && forall sid | sid in ids && sid in s.rowLock :: s.rowLock[sid] == p
    ensures RefreshesOk(Ended(Buried(s, ids), p, Done))
  {
    BurialRespects(s, ids, p);
    EndRespects(s, Buried(s, ids), p, Done);
    RefreshesFrom(s, Ended(Buried(s, ids), p, Done), p);
  }

  /** A rotation just before its transaction ends. */
  function Replaced(s: Sys, p: Pid, r: Refresh, role: Role, version: int, sid: SessionId): Sys {
    Born(Buried(s, {r.jti}), sid, r.sub, role, version, true).(rotatedBy := s.rotatedBy[r.jti := p])
  }

  /** Whoever holds the owner's advisory lock may add a renewed session. */
  lemma BirthRespects(s: Sys, s1: Sys, p: Pid, sid: SessionId, u: UserId, role: Role, version: int)
    requires Respects(s, s1, p) && sid !in s.sessions && LockKey(u) in s.advisory && s.advisory[LockKey(u)] == p
    ensures Respects(s, Born(s1, sid, u, role, version, true), p)
  {
    var s2 := Born(s1, sid, u, role, version, true);
    forall x ensures SessionKept(s, s2, x, p) && SessionNew(s, s2, x, p) {
      assert SessionKept(s, s1, x, p) && SessionNew(s, s1, x, p);
    }
  }

  lemma RenewingHolds(s: Sys, p: Pid, r: Refresh, role: Role, version: int)
    requires p in s.procs && s.procs[p] == Refreshing(r, Renewing(role, version)) && RefreshesOk(s)
    ensures StageOk(s, p, r, Renewing(role, version)) && r.jti !in s.rotatedBy
  {
    assert RefreshOk(s, p);
  }

  lemma NoteRespects(s: Sys, s1: Sys, p: Pid, sid: SessionId)
    requires Respects(s, s1, p) && s1.rotatedBy == s.rotatedBy && sid !in s.rotatedBy
    ensures Respects(s, s1.(rotatedBy := s.rotatedBy[sid := p]), p)
  {
    var s2 := s1.(rotatedBy := s.rotatedBy[sid := p]);
    forall x ensures SessionKept(s, s2, x, p) && SessionNew(s, s2, x, p) {
      assert SessionKept(s, s1, x, p) && SessionNew(s, s1, x, p);
    }
  }

  lemma ReplacementRespects(s: Sys, p: Pid, r: Refresh, role: Role, version: int, sid: SessionId)
    requires StageOk(s, p, r, Renewing(role, version)) && r.jti !in s.rotatedBy && sid !in s.sessions
    ensures Respects(s, Replaced(s, p, r, role, version, sid), p)
  {
    var s1 := Buried(s, {r.jti});
    BurialRespects(s, {r.jti}, p);
    BirthRespects(s, s1, p, sid, r.sub, role, version);
    NoteRespects(s, Born(s1, sid, r.sub, role, version, true), p, r.jti);
  }

  lemma RotateKeeps(s: Sys, p: Pid, sid: SessionId)
    requires Enabled(s, Rotate(p, sid)) && RefreshesOk(s)
    ensures s.procs[p].r.jti !in s.rotatedBy
    ensures RefreshesOk(ExecRefresh(s, Rotate(p, sid)))
  {
    var r, stage := s.procs[p].r, s.procs[p].stage;
    RenewingHolds(s, p, r, stage.role, stage.version);
    ReplacementRespects(s, p, r, stage.role, stage.version, sid);
    var s1 := Replaced(s, p, r, stage.role, stage.version, sid);
    EndRespects(s, s1, p, Refreshing(r, Rotated));
    RefreshesFrom(s, Ended(s1, p, Refreshing(r, Rotated)), p);
  }

  lemma RefreshKeepsRefreshes(s: Sys, step: Step)
    requires Enabled(s, step) && Refreshes(step) && RefreshesOk(s)
    ensures RefreshesOk(ExecRefresh(s, step))
  {
    if step.Rotate? {
      RotateKeeps(s, step.p, step.sid);
    } else if step.Select? {
      assert RefreshOk(s, step.p);
      SelectKeeps(s, step.p, s.procs[step.p].r, step.expired);
    } else if step.RevokeAll? {
      assert RefreshOk(s, step.p);
      CondemnKeeps(s, step.p, s.procs[step.p].r, s.procs[step.p].stage.ids);
    } else if step.Retire? {
      assert RefreshOk(s, step.p);
      BurialKeeps(s, step.p, {s.procs[step.p].r.jti});
    } else if step.CommitReplay? {
      assert RefreshOk(s, step.p);
      BurialKeeps(s, step.p, s.procs[step.p].stage.ids);
    } else {
      EarlyRefreshKeeps(s, step);
    }
  }

  lemma RefreshesKept(s: Sys, step: Step)
    requires Enabled(s, step) && RefreshesOk(s)
    ensures RefreshesOk(Exec(s, step))
  {
    if Validates(step) { ValidateKeepsRefreshes(s, step); }
    else if Refreshes(step) { RefreshKeepsRefreshes(s, step); }
    else if Changes(step) { ChangeKeepsRefreshes(s, step); }
    else if Sweeps(step) { SweepKeeps(s, step); }
    else { OtherKeepsRefreshes(s, step); }
  }

  // ----- Every schedule -----

  ghost predicate Sound(s: Sys) { VersionsOk(s) && PastOk(s) && TokensOk(s) && RefreshesOk(s) }

  lemma SoundStep(s: Sys, step: Step)
    requires Sound(s)
    ensures Sound(Next(s, step)) && Grows(s, Next(s, step))
  {
    if Enabled(s, step) {
      assert step.Announce? ==> PhaseOk(s, s.procs[step.p]);
      VersionsKept(s, step);
      PastKept(s, step);
      TokensKept(s, step);
      RefreshesKept(s, step);
    }
  }

  lemma {:induction false} SoundAfter(s: Sys, steps: seq<Step>)
    requires Sound(s)
    ensures Sound(Run(s, steps)) && Grows(s, Run(s, steps))
    decreases |steps|
  {
    if steps != [] {
      SoundAfter(s, steps[..|steps| - 1]);
      SoundStep(Run(s, steps[..|steps| - 1]), steps[|steps| - 1]);
    }
  }

  lemma EveryScheduleIsSound(steps: seq<Step>)
    ensures Sound(StateAfter(steps))
  {
    SoundAfter(IDLE, steps);
  }
}
