/** Over every schedule: what was read, and when, behind an accepted token, a rotation and a
    committed change. */
module Moments {
  import opened Domain
  import opened Interleaving
  import opened Schedules
  import opened Concurrency

  // ----- a session was seen alive behind every acceptance -----

  /** Just after the first i steps some validation is about to read the session, which is unrevoked
      and its token's own, and finds it unexpired. */
  ghost predicate SeenAt(steps: seq<Step>, i: nat, sid: SessionId) {
    i < |steps| && steps[i].ReadSession? && !steps[i].expired && Sees(StateAfter(steps[..i]), steps[i].p, sid)
  }

  ghost predicate Sees(s: Sys, p: Pid, sid: SessionId) {
    && Checks(s, p, SawUser) && s.procs[p].t.sid == sid
    && sid in s.sessions && !s.sessions[sid].revoked && s.sessions[sid].owner == s.procs[p].t.sub
  }

  ghost predicate Seen(steps: seq<Step>, sid: SessionId) { exists i: nat :: SeenAt(steps, i, sid) }

  /** A validation that has got past the session read, or was accepted. */
  predicate Vouches(s: Sys, p: Pid, sid: SessionId) {
    && p in s.procs && s.procs[p].Checking? && s.procs[p].t.sid == sid
    && s.procs[p].check in {SawSession, Announced, Accepted}
  }

  lemma SeenEarlier(steps: seq<Step>, sid: SessionId)
    requires steps != [] && Seen(steps[..|steps| - 1], sid)
    ensures Seen(steps, sid)
  {
    var i: nat :| SeenAt(steps[..|steps| - 1], i, sid);
    assert steps[..i] == steps[..|steps| - 1][..i];
    assert SeenAt(steps, i, sid);
  }

  /** Where vouching and keys come from. */
  lemma VouchedBefore(s: Sys, step: Step, p: Pid, sid: SessionId)
    requires Vouches(Next(s, step), p, sid)
    ensures Vouches(s, p, sid) || sid in s.keys || (step.ReadSession? && !step.expired && Sees(s, step.p, sid))
  {
    if Enabled(s, step) && !Validates(step) { StandsAside(s, step); }
  }

  lemma KeyedBefore(s: Sys, step: Step, sid: SessionId)
    requires sid in Next(s, step).keys
    ensures sid in s.keys || (step.Fill? && Vouches(s, step.p, sid))
  {
    if Enabled(s, step) && !Validates(step) { StandsAside(s, step); }
  }

  lemma {:induction false} KeyWasSeen(steps: seq<Step>, sid: SessionId)
    requires sid in StateAfter(steps).keys
    ensures Seen(steps, sid)
    decreases |steps|
  {
    var before := steps[..|steps| - 1];
    var step := steps[|steps| - 1];
    KeyedBefore(StateAfter(before), step, sid);
    if sid in StateAfter(before).keys { KeyWasSeen(before, sid); } else { VoucherSaw(before, step.p, sid); }
    SeenEarlier(steps, sid);
  }

  lemma {:induction false} VoucherSaw(steps: seq<Step>, p: Pid, sid: SessionId)
    requires Vouches(StateAfter(steps), p, sid)
    ensures Seen(steps, sid)
    decreases |steps|
  {
    var n := |steps| - 1;
    var before := steps[..n];
    VouchedBefore(StateAfter(before), steps[n], p, sid);
    if Vouches(StateAfter(before), p, sid) {
      VoucherSaw(before, p, sid);
      SeenEarlier(steps, sid);
    } else if sid in StateAfter(before).keys {
      KeyWasSeen(before, sid);
      SeenEarlier(steps, sid);
    } else {
      assert SeenAt(steps, n, sid);
    }
  }

  /** Whichever path accepted a token: before, some validation read its session and found it
      unrevoked, unexpired and its owner's. */
  lemma AcceptedSessionWasAlive(steps: seq<Step>, p: Pid, t: Access)
    requires p in StateAfter(steps).procs && StateAfter(steps).procs[p] == Checking(t, Accepted)
    ensures exists i: nat :: SeenAt(steps, i, t.sid)
  {
    VoucherSaw(steps, p, t.sid);
  }

  // ----- a change commits what it set out to commit -----

  /** The step read the user's row under its lock and set out to write this row. */
  predicate Begins(s: Sys, step: Step, p: Pid, u: UserId, row: Row) {
    Enabled(s, step) &&
    match step
    case Update(q, v, SetRole(role)) =>
      q == p && v == u && row == Row(role, s.rows[u].status, s.rows[u].version + 1)
    case Update(q, v, SetStatus(status)) =>
      q == p && v == u && row == Row(s.rows[u].role, status, s.rows[u].version + 1)
    case Insert(q, v) => q == p && v == u && row == Row(Role.SuperAdmin, Status.Active, 2)
    case _ => false
  }

  predicate SameRow(s: Sys, s': Sys, u: UserId) {
    (u in s.rows <==> u in s'.rows) && (u in s.rows ==> s.rows[u] == s'.rows[u])
  }

  predicate Writes(s: Sys, p: Pid, u: UserId, row: Row) {
    p in s.procs && s.procs[p].Changing? && s.procs[p].user == u && s.procs[p].row == row
  }

  /** While a change is under way its row waits for it. */
  lemma ChangedBefore(s: Sys, step: Step, p: Pid, u: UserId, row: Row)
    requires Enabled(s, step) && Changes(step) && VersionsOk(s) && Writes(ExecChange(s, step), p, u, row)
    ensures (Writes(s, p, u, row) && SameRow(s, ExecChange(s, step), u))
            || (Begins(s, step, p, u, row) && SameRow(s, ExecChange(s, step), u))
  {
    if p in s.procs { assert ChangeOk(s, p); }
    if step.CommitChange? { assert ChangeOk(s, step.p); }
  }

  lemma FramedBefore(s: Sys, s': Sys, p: Pid, u: UserId, row: Row)
    requires VersionFrame(s, s') && Writes(s', p, u, row)
    ensures SameRow(s, s', u) && Writes(s, p, u, row)
  {
  }

  lemma AnnouncedBefore(s: Sys, q: Pid, p: Pid, u: UserId, row: Row)
    requires Enabled(s, Announce(q)) && Writes(ExecValidate(s, Announce(q)), p, u, row)
    ensures SameRow(s, ExecValidate(s, Announce(q)), u) && Writes(s, p, u, row)
  {
  }

  lemma CalmBefore(s: Sys, step: Step, p: Pid, u: UserId, row: Row)
    requires Enabled(s, step) && !Changes(step) && !step.Announce? && Writes(Exec(s, step), p, u, row)
    ensures SameRow(s, Exec(s, step), u) && Writes(s, p, u, row)
  {
    Framed(s, step);
    FramedBefore(s, Exec(s, step), p, u, row);
  }

  lemma WrittenBefore(s: Sys, step: Step, p: Pid, u: UserId, row: Row)
    requires VersionsOk(s) && Writes(Next(s, step), p, u, row)
    ensures SameRow(s, Next(s, step), u) && (Writes(s, p, u, row) || Begins(s, step, p, u, row))
  {
    if !Enabled(s, step) {
      assert Next(s, step) == s;
    } else if Changes(step) {
      assert Next(s, step) == ExecChange(s, step);
      ChangedBefore(s, step, p, u, row);
    } else if step.Announce? {
      assert Next(s, step) == ExecValidate(s, step);
      AnnouncedBefore(s, step.p, p, u, row);
    } else {
      CalmBefore(s, step, p, u, row);
    }
  }

  ghost predicate BegunAt(steps: seq<Step>, i: nat, p: Pid, u: UserId, row: Row) {
    i < |steps| && Begins(StateAfter(steps[..i]), steps[i], p, u, row)
    && SameRow(StateAfter(steps[..i]), StateAfter(steps), u)
  }

  lemma {:induction false} ChangeWasBegun(steps: seq<Step>, p: Pid, u: UserId, row: Row)
    requires Writes(StateAfter(steps), p, u, row)
    ensures exists i: nat :: BegunAt(steps, i, p, u, row)
    decreases |steps|
  {
    var n := |steps| - 1;
    var before := steps[..n];
    EveryScheduleIsSound(before);
    WrittenBefore(StateAfter(before), steps[n], p, u, row);
    if Writes(StateAfter(before), p, u, row) {
      ChangeWasBegun(before, p, u, row);
      var i: nat :| BegunAt(before, i, p, u, row);
      assert steps[..i] == before[..i];
      assert BegunAt(steps, i, p, u, row);
    } else {
      assert BegunAt(steps, n, p, u, row);
    }
  }

  /** No lost update: whatever ran in between, a change that commits writes exactly what its update
      asked for, into the row as that update found it, with the version raised by one. */
  lemma CommitsItsEdit(steps: seq<Step>, p: Pid)
    requires Enabled(StateAfter(steps), CommitChange(p))
    ensures var u, row := StateAfter(steps).procs[p].user, StateAfter(steps).procs[p].row;
            var after := StateAfter(steps + [CommitChange(p)]);
            && (exists i: nat :: BegunAt(steps, i, p, u, row))
            && after.rows == StateAfter(steps).rows[u := row]
  {
    var u, row := StateAfter(steps).procs[p].user, StateAfter(steps).procs[p].row;
    ChangeWasBegun(steps, p, u, row);
    RunNext(IDLE, steps, CommitChange(p));
  }

  // ----- a rotation serves an active account -----

  /** At that version of the user the account was active. */
  predicate ActiveAt(s: Sys, u: UserId, version: int) {
    (u, version) in s.past && s.past[(u, version)].status == Status.Active
  }

  predicate AboutToRotate(s: Sys, p: Pid, u: UserId, version: int) {
    p in s.procs && s.procs[p].Refreshing? && s.procs[p].stage.Renewing? && s.procs[p].r.sub == u
    && s.procs[p].stage.version == version
  }

  lemma MoveStarts(s: Sys, s1: Sys, q: Pid, phase: Phase, p: Pid, u: UserId, version: int)
    requires s1.procs == s.procs && !(phase.Refreshing? && phase.stage.Renewing?)
    ensures AboutToRotate(Moved(s1, q, phase), p, u, version) ==> AboutToRotate(s, p, u, version)
    ensures AboutToRotate(Ended(s1, q, phase), p, u, version) ==> AboutToRotate(s, p, u, version)
  {
  }

  lemma SelectStarts(s: Sys, q: Pid, r: Refresh, expired: bool, p: Pid, u: UserId, version: int)
    ensures AboutToRotate(Selected(s, q, r, expired), p, u, version) ==> AboutToRotate(s, p, u, version)
  {
    if Alive(s, r.jti) && s.sessions[r.jti].owner == r.sub {
      MoveStarts(s, s.(rowLock := s.rowLock[r.jti := q]), q, Refreshing(r, if expired then Retiring else Held), p, u,
        version);
    } else if expired && !Alive(s, r.jti) {
      MoveStarts(s, s, q, Failed, p, u, version);
    } else {
      MoveStarts(s, s, q, Refreshing(r, Replaying), p, u, version);
    }
  }

  lemma OwnerStarts(s: Sys, q: Pid, r: Refresh, p: Pid, u: UserId, version: int)
    requires PastOk(s) && AboutToRotate(Owned(s, q, r), p, u, version)
    ensures AboutToRotate(s, p, u, version) || ActiveAt(s, u, version)
  {
    if r.sub in s.rows && s.rows[r.sub].status == Status.Active {
      assert HistoryOk(s, r.sub);
    } else {
      MoveStarts(s, s, q, Failed, p, u, version);
    }
  }

  lemma RefreshStarts(s: Sys, step: Step, p: Pid, u: UserId, version: int)
    requires Enabled(s, step) && Refreshes(step) && !step.ReadOwner?
    requires AboutToRotate(ExecRefresh(s, step), p, u, version)
    ensures AboutToRotate(s, p, u, version)
  {
    if step.Select? { SelectStarts(s, step.p, s.procs[step.p].r, step.expired, p, u, version); }
  }

  lemma OtherStarts(s: Sys, step: Step, p: Pid, u: UserId, version: int)
    requires Enabled(s, step) && !Refreshes(step) && AboutToRotate(Exec(s, step), p, u, version)
    ensures AboutToRotate(s, p, u, version)
  {
    if Validates(step) { assert Exec(s, step) == ExecValidate(s, step); }
    else if Changes(step) { assert Exec(s, step) == ExecChange(s, step); }
    else if Sweeps(step) { assert Exec(s, step) == ExecSweep(s, step); }
    else { assert Exec(s, step) == ExecOther(s, step); }
  }

  lemma RotationStarts(s: Sys, step: Step, p: Pid, u: UserId, version: int)
    requires PastOk(s) && AboutToRotate(Next(s, step), p, u, version)
    ensures AboutToRotate(s, p, u, version) || ActiveAt(s, u, version)
  {
    if Enabled(s, step) {
      if !Refreshes(step) { OtherStarts(s, step, p, u, version); }
      else if step.ReadOwner? { OwnerStarts(s, step.p, s.procs[step.p].r, p, u, version); }
      else { RefreshStarts(s, step, p, u, version); }
    }
  }

  lemma {:induction false} RotatorSawActive(steps: seq<Step>, p: Pid, u: UserId, version: int)
    requires AboutToRotate(StateAfter(steps), p, u, version)
    ensures ActiveAt(StateAfter(steps), u, version)
    decreases |steps|
  {
    var before := steps[..|steps| - 1];
    EveryScheduleIsSound(before);
    SoundStep(StateAfter(before), steps[|steps| - 1]);
    RotationStarts(StateAfter(before), steps[|steps| - 1], p, u, version);
    if AboutToRotate(StateAfter(before), p, u, version) { RotatorSawActive(before, p, u, version); }
  }

  /** Over every schedule: when a refresh commits a rotation, the account was active at the version
      and had the role that the new access token carries. */
  lemma RotationServesActive(steps: seq<Step>, p: Pid, sid: SessionId)
    requires Enabled(StateAfter(steps), Rotate(p, sid))
    ensures var s := StateAfter(steps + [Rotate(p, sid)]);
            && sid in s.births && s.births[sid] in s.minted && s.births[sid].sub == StateAfter(steps).procs[p].r.sub
            && var t := s.births[sid];
               (t.sub, t.av) in s.past && s.past[(t.sub, t.av)] == Row(t.role, Status.Active, t.av)
  {
    var s := StateAfter(steps);
    var r, stage := s.procs[p].r, s.procs[p].stage;
    RotatorSawActive(steps, p, r.sub, stage.version);
    EveryScheduleIsSound(steps);
    assert PhaseOk(s, s.procs[p]) && EntryOk(s, (r.sub, stage.version));
    RunNext(IDLE, steps, Rotate(p, sid));
    assert Next(s, Rotate(p, sid)) == Renewed(s, p, r, stage.role, stage.version, sid);
  }

  // ----- a rotation presented a live session, and a presented session is spent -----

  /** p's refresh has selected its session and is on its way to a rotation. */
  predicate OnWay(s: Sys, p: Pid, r: Refresh) {
    && p in s.procs && s.procs[p].Refreshing? && s.procs[p].r == r
    && (s.procs[p].stage.Held? || s.procs[p].stage.Cleared? || s.procs[p].stage.Renewing?)
  }

  /** The step selects the session for update, and finds it unrevoked, unexpired and the user's. */
  predicate SelectsLive(s: Sys, step: Step, p: Pid, r: Refresh) {
    && step == Select(p, false) && p in s.procs && s.procs[p] == Refreshing(r, Serialised)
    && r.jti in s.sessions && !s.sessions[r.jti].revoked && s.sessions[r.jti].owner == r.sub
  }

  predicate Waiting(phase: Phase) {
    !(phase.Refreshing? && (phase.stage.Held? || phase.stage.Cleared? || phase.stage.Renewing?))
  }

  lemma MoveOffWay(s: Sys, s1: Sys, q: Pid, phase: Phase, p: Pid, r: Refresh)
    requires s1.procs == s.procs && Waiting(phase)
    ensures OnWay(Moved(s1, q, phase), p, r) ==> OnWay(s, p, r)
    ensures OnWay(Ended(s1, q, phase), p, r) ==> OnWay(s, p, r)
  {
  }

  lemma SelectSetsOut(s: Sys, q: Pid, expired: bool, p: Pid, r: Refresh)
    requires Enabled(s, Select(q, expired)) && OnWay(Selected(s, q, s.procs[q].r, expired), p, r)
    ensures OnWay(s, p, r) || SelectsLive(s, Select(q, expired), p, r)
  {
    var r0 := s.procs[q].r;
    if Alive(s, r0.jti) && s.sessions[r0.jti].owner == r0.sub {
      if expired { MoveOffWay(s, s.(rowLock := s.rowLock[r0.jti := q]), q, Refreshing(r0, Retiring), p, r); }
    } else if expired && !Alive(s, r0.jti) {
      MoveOffWay(s, s, q, Failed, p, r);
    } else {
      MoveOffWay(s, s, q, Refreshing(r0, Replaying), p, r);
    }
  }

  lemma OwnerGoesOn(s: Sys, q: Pid, p: Pid, r: Refresh)
    requires Enabled(s, ReadOwner(q)) && OnWay(Owned(s, q, s.procs[q].r), p, r)
    ensures OnWay(s, p, r)
  {
    var r0 := s.procs[q].r;
    if !(r0.sub in s.rows && s.rows[r0.sub].status == Status.Active) { MoveOffWay(s, s, q, Failed, p, r); }
  }

  lemma RefreshGoesOn(s: Sys, step: Step, p: Pid, r: Refresh)
    requires Enabled(s, step) && Refreshes(step) && !step.Select? && !step.ReadOwner?
    requires OnWay(ExecRefresh(s, step), p, r)
    ensures OnWay(s, p, r)
  {
  }

  lemma OtherGoesOn(s: Sys, step: Step, p: Pid, r: Refresh)
    requires Enabled(s, step) && !Refreshes(step) && OnWay(Exec(s, step), p, r)
    ensures OnWay(s, p, r)
  {
    if Validates(step) { assert Exec(s, step) == ExecValidate(s, step); }
    else if Changes(step) { assert Exec(s, step) == ExecChange(s, step); }
    else if Sweeps(step) { assert Exec(s, step) == ExecSweep(s, step); }
    else { assert Exec(s, step) == ExecOther(s, step); }
  }

  lemma OnWayBefore(s: Sys, step: Step, p: Pid, r: Refresh)
    requires OnWay(Next(s, step), p, r)
    ensures OnWay(s, p, r) || SelectsLive(s, step, p, r)
  {
    if Enabled(s, step) {
      if !Refreshes(step) { OtherGoesOn(s, step, p, r); }
      else if step.Select? { SelectSetsOut(s, step.p, step.expired, p, r); }
      else if step.ReadOwner? { OwnerGoesOn(s, step.p, p, r); }
      else { RefreshGoesOn(s, step, p, r); }
    }
  }

  ghost predicate SelectedAt(steps: seq<Step>, i: nat, p: Pid, r: Refresh) {
    i < |steps| && SelectsLive(StateAfter(steps[..i]), steps[i], p, r)
  }

  lemma {:induction false} OnWaySelected(steps: seq<Step>, p: Pid, r: Refresh)
    requires OnWay(StateAfter(steps), p, r)
    ensures exists i: nat :: SelectedAt(steps, i, p, r)
    decreases |steps|
  {
    var n := |steps| - 1;
    var before := steps[..n];
    OnWayBefore(StateAfter(before), steps[n], p, r);
    if OnWay(StateAfter(before), p, r) {
      OnWaySelected(before, p, r);
      var i: nat :| SelectedAt(before, i, p, r);
      assert steps[..i] == before[..i];
      assert SelectedAt(steps, i, p, r);
    } else {
      assert SelectedAt(steps, n, p, r);
    }
  }

  /** Over every schedule: a refresh about to rotate had itself selected its session, which was
      unrevoked, unexpired and the token's user's, and still is unrevoked. */
  lemma RotationPresentsLive(steps: seq<Step>, p: Pid, sid: SessionId)
    requires Enabled(StateAfter(steps), Rotate(p, sid))
    ensures var s := StateAfter(steps);
            && (exists i: nat :: SelectedAt(steps, i, p, s.procs[p].r))
            && s.procs[p].r.jti in s.sessions && !s.sessions[s.procs[p].r.jti].revoked
  {
    var s := StateAfter(steps);
    OnWaySelected(steps, p, s.procs[p].r);
    EveryScheduleIsSound(steps);
    assert RefreshOk(s, p);
  }

  lemma {:induction false} RevokedForGood(s: Sys, more: seq<Step>, sid: SessionId)
    requires Revoked(s, sid)
    ensures Revoked(Run(s, more), sid)
    decreases |more|
  {
    if more != [] {
      var before, step := Run(s, more[..|more| - 1]), more[|more| - 1];
      RevokedForGood(s, more[..|more| - 1], sid);
      if Enabled(before, step) && !Validates(step) { StandsAside(before, step); }
    }
  }

  /** Over every schedule: once a refresh commits its rotation, or finds its session expired and
      commits that, the session it presented is revoked and stays so. */
  lemma PresentedIsSpent(steps: seq<Step>, step: Step, more: seq<Step>)
    requires Enabled(StateAfter(steps), step) && (step.Rotate? || step.Retire?)
    ensures Revoked(Run(StateAfter(steps + [step]), more), StateAfter(steps).procs[step.p].r.jti)
  {
    var s := StateAfter(steps);
    var ph := s.procs[step.p];
    EveryScheduleIsSound(steps);
    assert RefreshOk(s, step.p);
    RunNext(IDLE, steps, step);
    if step.Rotate? {
      assert Next(s, step) == Renewed(s, step.p, ph.r, ph.stage.role, ph.stage.version, step.sid);
    } else {
      assert Next(s, step) == Ended(Buried(s, {ph.r.jti}), step.p, Done);
    }
    RevokedForGood(Next(s, step), more, ph.r.jti);
  }
}
