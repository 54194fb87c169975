/** Which sessions of a user outlive a replay or a revoke-all that runs while logins and refreshes go
    on: exactly those committed after its statement began. */
module Survivors {
  import opened Domain
  import opened Interleaving
  import opened Schedules
  import opened Concurrency

  /** The sessions a process is about to revoke, and whose they are. */
  datatype Aim = Aim(user: UserId, ids: set<SessionId>)

  function AimOf(phase: Phase): Option<Aim> {
    match phase
    case Refreshing(r, stage) =>
      if stage.Scanned? || stage.Condemning? then Some(Aim(r.sub, stage.ids)) else None
    case Sweeping(u, ids, _) => Some(Aim(u, ids))
    case _ => None
  }

  predicate Aims(s: Sys, q: Pid, aim: Aim) { q in s.procs && AimOf(s.procs[q]) == Some(aim) }

  predicate Hits(s: Sys, u: UserId, sid: SessionId) { Alive(s, sid) && s.sessions[sid].owner == u }

  /** The i-th step began q's statement over all the user's sessions. */
  predicate BeganAt(steps: seq<Step>, i: nat, q: Pid) {
    i < |steps| && (steps[i].Scan? || steps[i].Sweep?) && steps[i].p == q && Enabled(StateAfter(steps[..i]), steps[i])
  }

  /** The j-th step committed the session: a login, or, unless only logins are asked for, a refresh. */
  predicate BornAt(steps: seq<Step>, j: nat, sid: SessionId, loginsOnly: bool) {
    j < |steps| && (steps[j].Mint? || (steps[j].Rotate? && !loginsOnly)) && steps[j].sid == sid
    && Enabled(StateAfter(steps[..j]), steps[j])
  }

  ghost predicate BornSince(steps: seq<Step>, q: Pid, sid: SessionId, loginsOnly: bool) {
    exists i: nat, j: nat :: i < j && BeganAt(steps, i, q) && BornAt(steps, j, sid, loginsOnly)
  }

  // ----- Steps: sessions -----

  /** The session is alive afterwards only if it was alive before, with the same owner. */
  predicate NotRaised(s: Sys, s': Sys, sid: SessionId) {
    Alive(s', sid) ==> Alive(s, sid) && s'.sessions[sid].owner == s.sessions[sid].owner
  }

  lemma MoveRaisesNone(s: Sys, s1: Sys, p: Pid, phase: Phase)
    requires s1.sessions == s.sessions
    ensures Moved(s1, p, phase).sessions == s.sessions && Ended(s1, p, phase).sessions == s.sessions
  {
  }

  lemma SelectRaisesNone(s: Sys, p: Pid, r: Refresh, expired: bool)
    ensures Selected(s, p, r, expired).sessions == s.sessions
  {
    if Alive(s, r.jti) && s.sessions[r.jti].owner == r.sub {
      MoveRaisesNone(s, s.(rowLock := s.rowLock[r.jti := p]), p, Refreshing(r, if expired then Retiring else Held));
    } else if expired && !Alive(s, r.jti) {
      MoveRaisesNone(s, s, p, Failed);
    } else {
      MoveRaisesNone(s, s, p, Refreshing(r, Replaying));
    }
  }

  lemma OwnedRaisesNone(s: Sys, p: Pid, r: Refresh)
    ensures Owned(s, p, r).sessions == s.sessions
  {
    if r.sub in s.rows && s.rows[r.sub].status == Status.Active {
      MoveRaisesNone(s, s, p, Refreshing(r, Renewing(s.rows[r.sub].role, s.rows[r.sub].version)));
    } else {
      MoveRaisesNone(s, s, p, Failed);
    }
  }

  lemma RefreshRaisesNone(s: Sys, step: Step, sid: SessionId)
    requires Enabled(s, step) && Refreshes(step) && !step.Rotate?
    ensures NotRaised(s, ExecRefresh(s, step), sid)
  {
    if step.Select? { SelectRaisesNone(s, step.p, s.procs[step.p].r, step.expired); }
    if step.ReadOwner? { OwnedRaisesNone(s, step.p, s.procs[step.p].r); }
  }

  lemma ValidationRaisesNone(s: Sys, step: Step)
    requires Enabled(s, step) && Validates(step)
    ensures ExecValidate(s, step).sessions == s.sessions
  {
  }

  lemma ChangeRaisesNone(s: Sys, step: Step)
    requires Enabled(s, step) && Changes(step)
    ensures ExecChange(s, step).sessions == s.sessions
  {
  }

  lemma SweepRaisesNone(s: Sys, step: Step, sid: SessionId)
    requires Enabled(s, step) && Sweeps(step)
    ensures NotRaised(s, ExecSweep(s, step), sid)
  {
  }

  lemma OtherRaisesNone(s: Sys, step: Step, sid: SessionId)
    requires Enabled(s, step) && !Validates(step) && !Refreshes(step) && !Changes(step) && !Sweeps(step) && !step.Mint?
    ensures NotRaised(s, ExecOther(s, step), sid)
  {
  }

  lemma NoneRaised(s: Sys, step: Step, sid: SessionId)
    requires Enabled(s, step) && !step.Mint? && !step.Rotate?
    ensures NotRaised(s, Exec(s, step), sid)
  {
    if Validates(step) { ValidationRaisesNone(s, step); }
    else if Refreshes(step) { RefreshRaisesNone(s, step, sid); }
    else if Changes(step) { ChangeRaisesNone(s, step); }
    else if Sweeps(step) { SweepRaisesNone(s, step, sid); }
    else { OtherRaisesNone(s, step, sid); }
  }

  /** A session alive after a step was alive before it, or a login committed it, or a refresh. */
  lemma AliveBefore(s: Sys, step: Step, sid: SessionId)
    requires Alive(Next(s, step), sid)
    ensures NotRaised(s, Next(s, step), sid)
            || (Enabled(s, step) && step.Mint? && step.sid == sid)
            || (Enabled(s, step) && step.Rotate? && step.sid == sid && Next(s, step).sessions[sid].renewed)
  {
    if Enabled(s, step) && step.Rotate? {
      var ph := s.procs[step.p];
      assert Next(s, step) == Renewed(s, step.p, ph.r, ph.stage.role, ph.stage.version, step.sid);
    } else if Enabled(s, step) && step.Mint? {
      assert Next(s, step) == ExecOther(s, step);
    } else if Enabled(s, step) {
      NoneRaised(s, step, sid);
    }
  }

  // ----- Steps: aims -----

  /** Whoever aims at sessions in the later state was in the same phase before. */
  predicate SameAim(s: Sys, s': Sys, q: Pid) {
    q in s'.procs && AimOf(s'.procs[q]).Some? ==> q in s.procs && s.procs[q] == s'.procs[q]
  }

  lemma MoveTakesNoAim(s: Sys, s1: Sys, p: Pid, phase: Phase, q: Pid)
    requires s1.procs == s.procs && AimOf(phase).None?
    ensures SameAim(s, Moved(s1, p, phase), q) && SameAim(s, Ended(s1, p, phase), q)
  {
  }

  lemma SelectTakesNoAim(s: Sys, p: Pid, r: Refresh, expired: bool, q: Pid)
    ensures SameAim(s, Selected(s, p, r, expired), q)
  {
    if Alive(s, r.jti) && s.sessions[r.jti].owner == r.sub {
      MoveTakesNoAim(s, s.(rowLock := s.rowLock[r.jti := p]), p,
                     Refreshing(r, if expired then Retiring else Held), q);
    } else if expired && !Alive(s, r.jti) {
      MoveTakesNoAim(s, s, p, Failed, q);
    } else {
      MoveTakesNoAim(s, s, p, Refreshing(r, Replaying), q);
    }
  }

  lemma OwnedTakesNoAim(s: Sys, p: Pid, r: Refresh, q: Pid)
    ensures SameAim(s, Owned(s, p, r), q)
  {
    if r.sub in s.rows && s.rows[r.sub].status == Status.Active {
      MoveTakesNoAim(s, s, p, Refreshing(r, Renewing(s.rows[r.sub].role, s.rows[r.sub].version)), q);
    } else {
      MoveTakesNoAim(s, s, p, Failed, q);
    }
  }

  lemma RefreshTakesNoAim(s: Sys, step: Step, q: Pid)
    requires Enabled(s, step) && Refreshes(step) && !step.Scan? && !step.RevokeAll?
    ensures SameAim(s, ExecRefresh(s, step), q)
  {
    if step.Select? { SelectTakesNoAim(s, step.p, s.procs[step.p].r, step.expired, q); }
    if step.ReadOwner? { OwnedTakesNoAim(s, step.p, s.procs[step.p].r, q); }
  }

  lemma ValidationTakesNoAim(s: Sys, step: Step, q: Pid)
    requires Enabled(s, step) && Validates(step)
    ensures SameAim(s, ExecValidate(s, step), q)
  {
  }

  lemma OtherTakesNoAim(s: Sys, step: Step, q: Pid)
    requires Enabled(s, step) && !Validates(step) && !Refreshes(step) && !Sweeps(step)
    ensures SameAim(s, Exec(s, step), q)
  {
  }

  /** The aim of a process after a step: as before it, or narrowed to what is still alive when the
      statement gets its locks, or everything alive when the statement begins. */
  ghost predicate Narrows(s: Sys, s': Sys, q: Pid, aim: Aim, ids: set<SessionId>) {
    && Aims(s, q, Aim(aim.user, ids)) && aim.ids <= ids && (InRefresh(s', q) ==> InRefresh(s, q))
    && forall sid | Hits(s', aim.user, sid) && sid in ids :: sid in aim.ids
  }

  ghost predicate AimKept(s: Sys, s': Sys, q: Pid, aim: Aim) { exists ids :: Narrows(s, s', q, aim, ids) }

  ghost predicate AimBegun(s: Sys, step: Step, q: Pid, aim: Aim) {
    && Enabled(s, step) && (step.Scan? || step.Sweep?) && step.p == q
    && aim.ids == AliveOf(s, aim.user) && Next(s, step).sessions == s.sessions
  }

  lemma SameIsKept(s: Sys, s': Sys, q: Pid, aim: Aim)
    requires SameAim(s, s', q) && Aims(s', q, aim)
    ensures AimKept(s, s', q, aim)
  {
    assert Narrows(s, s', q, aim, aim.ids);
  }

  lemma LockKeepsAim(s: Sys, s': Sys, q: Pid, u: UserId, ids: set<SessionId>)
    requires Aims(s, q, Aim(u, ids)) && s'.sessions == s.sessions && (InRefresh(s', q) ==> InRefresh(s, q))
    ensures AimKept(s, s', q, Aim(u, StillAlive(s, ids)))
  {
    assert Narrows(s, s', q, Aim(u, StillAlive(s, ids)), ids);
  }

  lemma RevokeAllAims(s: Sys, p: Pid, q: Pid, aim: Aim)
    requires Enabled(s, RevokeAll(p)) && Aims(ExecRefresh(s, RevokeAll(p)), q, aim)
    ensures AimKept(s, ExecRefresh(s, RevokeAll(p)), q, aim)
  {
    var s' := ExecRefresh(s, RevokeAll(p));
    if p == q {
      LockKeepsAim(s, s', q, s.procs[p].r.sub, s.procs[p].stage.ids);
    } else {
      SameIsKept(s, s', q, aim);
    }
  }

  lemma ScanAims(s: Sys, p: Pid, q: Pid, aim: Aim)
    requires Enabled(s, Scan(p)) && Aims(ExecRefresh(s, Scan(p)), q, aim)
    ensures AimKept(s, ExecRefresh(s, Scan(p)), q, aim) || AimBegun(s, Scan(p), q, aim)
  {
    if p != q { SameIsKept(s, ExecRefresh(s, Scan(p)), q, aim); }
  }

  lemma SweepAims(s: Sys, step: Step, q: Pid, aim: Aim)
    requires Enabled(s, step) && Sweeps(step) && Aims(ExecSweep(s, step), q, aim)
    ensures AimKept(s, ExecSweep(s, step), q, aim) || AimBegun(s, step, q, aim)
  {
    var s' := ExecSweep(s, step);
    if step.p != q {
      SameIsKept(s, s', q, aim);
    } else if step.Seize? {
      LockKeepsAim(s, s', q, s.procs[q].user, s.procs[q].ids);
    }
  }

  lemma AimBefore(s: Sys, step: Step, q: Pid, aim: Aim)
    requires Aims(Next(s, step), q, aim)
    ensures AimKept(s, Next(s, step), q, aim) || AimBegun(s, step, q, aim)
  {
    if !Enabled(s, step) {
      SameIsKept(s, s, q, aim);
    } else if Validates(step) {
      ValidationTakesNoAim(s, step, q);
      SameIsKept(s, Exec(s, step), q, aim);
    } else if step.Scan? {
      ScanAims(s, step.p, q, aim);
    } else if step.RevokeAll? {
      RevokeAllAims(s, step.p, q, aim);
    } else if Refreshes(step) {
      RefreshTakesNoAim(s, step, q);
      SameIsKept(s, Exec(s, step), q, aim);
    } else if Sweeps(step) {
      SweepAims(s, step, q, aim);
    } else {
      OtherTakesNoAim(s, step, q);
      SameIsKept(s, Exec(s, step), q, aim);
    }
  }

  // ----- What a statement misses was committed after it began -----

  lemma SinceExtends(steps: seq<Step>, q: Pid, sid: SessionId, loginsOnly: bool)
    requires steps != [] && BornSince(steps[..|steps| - 1], q, sid, loginsOnly)
    ensures BornSince(steps, q, sid, loginsOnly)
  {
    var before := steps[..|steps| - 1];
    var i: nat, j: nat :| i < j && BeganAt(before, i, q) && BornAt(before, j, sid, loginsOnly);
    assert steps[..i] == before[..i] && steps[..j] == before[..j];
    assert BeganAt(steps, i, q) && BornAt(steps, j, sid, loginsOnly);
  }

  /** Whoever aims at sessions began its statement at some earlier step. */
  lemma {:induction false} StatementBegan(steps: seq<Step>, q: Pid, aim: Aim)
    requires Aims(StateAfter(steps), q, aim)
    ensures exists i: nat :: BeganAt(steps, i, q)
    decreases |steps|
  {
    var n := |steps| - 1;
    var before := steps[..n];
    AimBefore(StateAfter(before), steps[n], q, aim);
    if AimBegun(StateAfter(before), steps[n], q, aim) {
      assert BeganAt(steps, n, q);
    } else {
      var ids :| Narrows(StateAfter(before), StateAfter(steps), q, aim, ids);
      StatementBegan(before, q, Aim(aim.user, ids));
      var i: nat :| BeganAt(before, i, q);
      assert steps[..i] == before[..i];
      assert BeganAt(steps, i, q);
    }
  }

  lemma BornLast(steps: seq<Step>, q: Pid, aim: Aim, sid: SessionId, loginsOnly: bool)
    requires steps != [] && Aims(StateAfter(steps[..|steps| - 1]), q, aim)
    requires BornAt(steps, |steps| - 1, sid, loginsOnly)
    ensures BornSince(steps, q, sid, loginsOnly)
  {
    var before := steps[..|steps| - 1];
    StatementBegan(before, q, aim);
    var i: nat :| BeganAt(before, i, q);
    assert steps[..i] == before[..i];
    assert BeganAt(steps, i, q);
  }

  /** The advisory lock keeps refreshes of the user out while a replay runs. */
  lemma ReplayCovers(steps: seq<Step>, q: Pid, aim: Aim, sid: SessionId)
    requires Aims(StateAfter(steps), q, aim) && InRefresh(StateAfter(steps), q)
    requires Offspring(StateAfter(steps), aim.user, sid)
    ensures sid in aim.ids
  {
    EveryScheduleIsSound(steps);
    assert RefreshOk(StateAfter(steps), q);
  }

  lemma {:induction false} MissedWasBorn(steps: seq<Step>, q: Pid, aim: Aim, sid: SessionId, loginsOnly: bool)
    requires Aims(StateAfter(steps), q, aim) && (loginsOnly ==> InRefresh(StateAfter(steps), q))
    requires Hits(StateAfter(steps), aim.user, sid) && sid !in aim.ids
    ensures BornSince(steps, q, sid, loginsOnly)
    decreases |steps|
  {
    var n := |steps| - 1;
    var before := steps[..n];
    var s, s' := StateAfter(before), StateAfter(steps);
    if loginsOnly && s'.sessions[sid].renewed { ReplayCovers(steps, q, aim, sid); }
    AimBefore(s, steps[n], q, aim);
    AliveBefore(s, steps[n], sid);
    if AimKept(s, s', q, aim) {
      var ids :| Narrows(s, s', q, aim, ids);
      if NotRaised(s, s', sid) {
        MissedWasBorn(before, q, Aim(aim.user, ids), sid, loginsOnly);
        SinceExtends(steps, q, sid, loginsOnly);
      } else {
        BornLast(steps, q, Aim(aim.user, ids), sid, loginsOnly);
      }
    }
  }

  // ----- And what was committed after it began is missed -----

  /** From its statement on, a process aims at nothing that was not alive then, or has ended. */
  predicate Bounded(s: Sys, q: Pid, aim: Aim) {
    && q in s.procs
    && (|| s.procs[q] in {Done, Failed}
        || (AimOf(s.procs[q]).Some? && AimOf(s.procs[q]).value.user == aim.user
            && AimOf(s.procs[q]).value.ids <= aim.ids))
  }

  lemma MoveIsLocal(s: Sys, s1: Sys, p: Pid, phase: Phase, q: Pid)
    requires s1.procs == s.procs && q in s.procs && p != q
    ensures q in Moved(s1, p, phase).procs && Moved(s1, p, phase).procs[q] == s.procs[q]
    ensures q in Ended(s1, p, phase).procs && Ended(s1, p, phase).procs[q] == s.procs[q]
  {
  }

  lemma SelectIsLocal(s: Sys, p: Pid, r: Refresh, expired: bool, q: Pid)
    requires q in s.procs && p != q
    ensures q in Selected(s, p, r, expired).procs && Selected(s, p, r, expired).procs[q] == s.procs[q]
  {
    if Alive(s, r.jti) && s.sessions[r.jti].owner == r.sub {
      MoveIsLocal(s, s.(rowLock := s.rowLock[r.jti := p]), p, Refreshing(r, if expired then Retiring else Held), q);
    } else if expired && !Alive(s, r.jti) {
      MoveIsLocal(s, s, p, Failed, q);
    } else {
      MoveIsLocal(s, s, p, Refreshing(r, Replaying), q);
    }
  }

  lemma OwnedIsLocal(s: Sys, p: Pid, r: Refresh, q: Pid)
    requires q in s.procs && p != q
    ensures q in Owned(s, p, r).procs && Owned(s, p, r).procs[q] == s.procs[q]
  {
    if r.sub in s.rows && s.rows[r.sub].status == Status.Active {
      MoveIsLocal(s, s, p, Refreshing(r, Renewing(s.rows[r.sub].role, s.rows[r.sub].version)), q);
    } else {
      MoveIsLocal(s, s, p, Failed, q);
    }
  }

  lemma RefreshKeepsBound(s: Sys, step: Step, q: Pid, aim: Aim)
    requires Enabled(s, step) && Refreshes(step) && Bounded(s, q, aim)
    ensures Bounded(ExecRefresh(s, step), q, aim)
  {
    if step.Select? { SelectIsLocal(s, step.p, s.procs[step.p].r, step.expired, q); }
    if step.ReadOwner? { OwnedIsLocal(s, step.p, s.procs[step.p].r, q); }
  }

  lemma ValidationKeepsBound(s: Sys, step: Step, q: Pid, aim: Aim)
    requires Enabled(s, step) && Validates(step) && Bounded(s, q, aim)
    ensures Bounded(ExecValidate(s, step), q, aim)
  {
  }

  lemma SweepKeepsBound(s: Sys, step: Step, q: Pid, aim: Aim)
    requires Enabled(s, step) && Sweeps(step) && Bounded(s, q, aim)
    ensures Bounded(ExecSweep(s, step), q, aim)
  {
  }

  lemma OtherKeepsBound(s: Sys, step: Step, q: Pid, aim: Aim)
    requires Enabled(s, step) && !Validates(step) && !Refreshes(step) && !Sweeps(step) && Bounded(s, q, aim)
    ensures Bounded(Exec(s, step), q, aim)
  {
  }

  lemma StaysBounded(s: Sys, step: Step, q: Pid, aim: Aim)
    requires Bounded(s, q, aim)
    ensures Bounded(Next(s, step), q, aim)
  {
    if Enabled(s, step) {
      if Validates(step) { ValidationKeepsBound(s, step, q, aim); }
      else if Refreshes(step) { RefreshKeepsBound(s, step, q, aim); }
      else if Sweeps(step) { SweepKeepsBound(s, step, q, aim); }
      else { OtherKeepsBound(s, step, q, aim); }
    }
  }

  /** Whose sessions the beginning statement is after. */
  function UserOf(s: Sys, step: Step): UserId
    requires Enabled(s, step) && (step.Scan? || step.Sweep?)
  {
    if step.Sweep? then step.u else s.procs[step.p].r.sub
  }

  lemma BeginBounds(s: Sys, step: Step)
    requires Enabled(s, step) && (step.Scan? || step.Sweep?)
    ensures var u := UserOf(s, step); Aims(Next(s, step), step.p, Aim(u, AliveOf(s, u)))
  {
    if step.Scan? {
      assert Next(s, step) == ExecRefresh(s, step);
    } else {
      assert Next(s, step) == ExecSweep(s, step);
    }
  }

  lemma {:induction false} BoundedSince(steps: seq<Step>, i: nat, q: Pid)
    requires BeganAt(steps, i, q)
    ensures var s := StateAfter(steps[..i]);
            Bounded(StateAfter(steps), q, Aim(UserOf(s, steps[i]), AliveOf(s, UserOf(s, steps[i]))))
    decreases |steps|
  {
    var n := |steps| - 1;
    var before := steps[..n];
    var s := StateAfter(steps[..i]);
    assert steps[..i] == before[..i];
    if i < n {
      BoundedSince(before, i, q);
      StaysBounded(StateAfter(before), steps[n], q, Aim(UserOf(s, steps[i]), AliveOf(s, UserOf(s, steps[i]))));
    } else {
      BeginBounds(s, steps[i]);
    }
  }

  lemma SessionsStay(earlier: seq<Step>, more: seq<Step>, sid: SessionId)
    requires sid in StateAfter(earlier).sessions
    ensures sid in StateAfter(earlier + more).sessions
  {
    EveryScheduleIsSound(earlier);
    SoundAfter(StateAfter(earlier), more);
    RunConcat(IDLE, earlier, more);
  }

  /** What is committed at some step was there at no earlier one. */
  lemma NotYetBorn(steps: seq<Step>, i: nat, j: nat, sid: SessionId, loginsOnly: bool)
    requires i <= j && BornAt(steps, j, sid, loginsOnly)
    ensures sid !in StateAfter(steps[..i]).sessions
  {
    if sid in StateAfter(steps[..i]).sessions { SessionsStay(steps[..i], steps[i..j], sid); }
    assert steps[..i] + steps[i..j] == steps[..j];
  }

  lemma BornSinceIsMissed(steps: seq<Step>, q: Pid, aim: Aim, sid: SessionId, loginsOnly: bool)
    requires Aims(StateAfter(steps), q, aim) && BornSince(steps, q, sid, loginsOnly)
    ensures sid !in aim.ids
  {
    var i: nat, j: nat :| i < j && BeganAt(steps, i, q) && BornAt(steps, j, sid, loginsOnly);
    BoundedSince(steps, i, q);
    NotYetBorn(steps, i, j, sid, loginsOnly);
  }

  // ----- At the commit -----

  lemma CommitBuries(s: Sys, q: Pid, ids: set<SessionId>, u: UserId, sid: SessionId)
    ensures Hits(Ended(Buried(s, ids), q, Done), u, sid) <==> Hits(s, u, sid) && sid !in ids
  {
  }

  /** When a replay commits, a session of the user is alive if and only if it was alive just before
      and a login committed it after the replay's statement began; and none of those alive was born
      by a refresh, however many refreshes of the user were attempted meanwhile. */
  lemma ReplaySparesOnlyLaterLogins(steps: seq<Step>, q: Pid, sid: SessionId)
    requires Enabled(StateAfter(steps), CommitReplay(q))
    ensures var s, after := StateAfter(steps), StateAfter(steps + [CommitReplay(q)]);
            var u := s.procs[q].r.sub;
            && (Hits(after, u, sid) <==> Hits(s, u, sid) && BornSince(steps, q, sid, true))
            && !Offspring(after, u, sid)
  {
    var s := StateAfter(steps);
    var aim := Aim(s.procs[q].r.sub, s.procs[q].stage.ids);
    RunNext(IDLE, steps, CommitReplay(q));
    assert Next(s, CommitReplay(q)) == Ended(Buried(s, aim.ids), q, Done);
    CommitBuries(s, q, aim.ids, aim.user, sid);
    if Hits(s, aim.user, sid) && sid !in aim.ids { MissedWasBorn(steps, q, aim, sid, true); }
    if Offspring(s, aim.user, sid) { ReplayCovers(steps, q, aim, sid); }
    if BornSince(steps, q, sid, true) { BornSinceIsMissed(steps, q, aim, sid, true); }
  }

  /** When a revoke-all commits, a session of the user is alive if and only if it was alive just
      before and a login or a refresh committed it after the statement began: no advisory lock keeps
      refreshes out. */
  lemma SweepSparesOnlyLaterSessions(steps: seq<Step>, q: Pid, sid: SessionId)
    requires Enabled(StateAfter(steps), CommitSweep(q))
    ensures var s, after := StateAfter(steps), StateAfter(steps + [CommitSweep(q)]);
            var u := s.procs[q].user;
            Hits(after, u, sid) <==> Hits(s, u, sid) && BornSince(steps, q, sid, false)
  {
    var s := StateAfter(steps);
    var aim := Aim(s.procs[q].user, s.procs[q].ids);
    RunNext(IDLE, steps, CommitSweep(q));
    assert Next(s, CommitSweep(q)) == Ended(Buried(s, aim.ids), q, Done);
    CommitBuries(s, q, aim.ids, aim.user, sid);
    if Hits(s, aim.user, sid) && sid !in aim.ids { MissedWasBorn(steps, q, aim, sid, false); }
    if BornSince(steps, q, sid, false) { BornSinceIsMissed(steps, q, aim, sid, false); }
  }

  // ----- Both have survivors -----

  /** q's replay of the user is about to commit, and the session is alive when it has. */
  predicate ReplaySpares(s: Sys, q: Pid, u: UserId, sid: SessionId) {
    Enabled(s, CommitReplay(q)) && s.procs[q].r.sub == u && Hits(Next(s, CommitReplay(q)), u, sid)
  }

  /** The same for a revoke-all. */
  predicate SweepSpares(s: Sys, q: Pid, u: UserId, sid: SessionId) {
    Enabled(s, CommitSweep(q)) && s.procs[q].user == u && Hits(Next(s, CommitSweep(q)), u, sid)
  }

  lemma OpenMoves(s: Sys, p: Pid, u: UserId)
    requires u in s.rows && p !in s.procs
    ensures Next(s, Open(p, u)) == Moved(s, p, Opening(u, s.rows[u].role, s.rows[u].version))
  {
  }

  lemma MintCommits(s: Sys, p: Pid, u: UserId, role: Role, version: int, sid: SessionId)
    requires p in s.procs && s.procs[p] == Opening(u, role, version) && sid !in s.sessions
    ensures Hits(Next(s, Mint(p, sid)), u, sid)
    ensures Next(s, Mint(p, sid)).procs == s.procs[p := Done]
  {
    assert Next(s, Mint(p, sid)) == Ended(Born(s, sid, u, role, version, false), p, Done);
  }

  lemma LoginCommits(s: Sys, p: Pid, u: UserId, sid: SessionId)
    requires u in s.rows && p !in s.procs && sid !in s.sessions
    ensures var s' := Next(Next(s, Open(p, u)), Mint(p, sid));
            Hits(s', u, sid) && forall q | q in s.procs :: q in s'.procs && s'.procs[q] == s.procs[q]
  {
    OpenMoves(s, p, u);
    MintCommits(Next(s, Open(p, u)), p, u, s.rows[u].role, s.rows[u].version, sid);
  }

  lemma ReplayLocks(s: Sys, q: Pid, r: Refresh)
    requires q in s.procs && s.procs[q] == Refreshing(r, Replaying) && Unlocked(s, AliveOf(s, r.sub))
    ensures var s' := Next(Next(s, Scan(q)), RevokeAll(q));
            && s'.procs == s.procs[q := Refreshing(r, Condemning(AliveOf(s, r.sub)))]
            && s'.sessions == s.sessions && s'.rows == s.rows
  {
    var ids := AliveOf(s, r.sub);
    var s1 := Moved(s, q, Refreshing(r, Scanned(ids)));
    assert Next(s, Scan(q)) == s1;
    assert Unlocked(s1, ids);
    assert Next(s1, RevokeAll(q)) == Condemned(s1, q, r, ids);
    assert StillAlive(s1, ids) == ids;
    assert s1.procs[q := Refreshing(r, Condemning(ids))] == s.procs[q := Refreshing(r, Condemning(ids))];
  }

  lemma CommitSpares(s: Sys, q: Pid, r: Refresh, ids: set<SessionId>, sid: SessionId)
    requires q in s.procs && s.procs[q] == Refreshing(r, Condemning(ids)) && Hits(s, r.sub, sid) && sid !in ids
    ensures ReplaySpares(s, q, r.sub, sid)
  {
    CommitBuries(s, q, ids, r.sub, sid);
  }

  function LoginInReplay(s: Sys, q: Pid, p: Pid, u: UserId, sid: SessionId): Sys {
    Next(Next(Next(Next(s, Scan(q)), RevokeAll(q)), Open(p, u)), Mint(p, sid))
  }

  /** From any state where a replay is about to revoke and no row it needs is locked, a login that
      commits in time survives. */
  lemma ReplayCanBeOutlived(s: Sys, q: Pid, r: Refresh, p: Pid, sid: SessionId)
    requires q in s.procs && s.procs[q] == Refreshing(r, Replaying) && Unlocked(s, AliveOf(s, r.sub))
    requires r.sub in s.rows && p !in s.procs && sid !in s.sessions
    ensures ReplaySpares(LoginInReplay(s, q, p, r.sub, sid), q, r.sub, sid)
  {
    ReplayLocks(s, q, r);
    LoginCommits(Next(Next(s, Scan(q)), RevokeAll(q)), p, r.sub, sid);
    CommitSpares(LoginInReplay(s, q, p, r.sub, sid), q, r, AliveOf(s, r.sub), sid);
  }

  lemma AskMoves(s: Sys, p: Pid, r: Refresh)
    requires r in s.tickets && p !in s.procs
    ensures Next(s, Ask(p, r)) == Moved(s, p, Refreshing(r, Asked))
  {
  }

  /** The state of a refresh that holds its user's advisory lock. */
  function InCritical(s: Sys, p: Pid, r: Refresh, stage: Stage): Sys {
    Moved(s.(advisory := s.advisory[LockKey(r.sub) := p]), p, Refreshing(r, stage))
  }

  lemma SerialiseLocks(s: Sys, p: Pid, r: Refresh)
    requires LockKey(r.sub) !in s.advisory
    ensures Next(Moved(s, p, Refreshing(r, Asked)), Serialise(p)) == InCritical(s, p, r, Serialised)
  {
    Overwritten(s.(advisory := s.advisory[LockKey(r.sub) := p]), p, Refreshing(r, Asked), Refreshing(r, Serialised));
  }

  function Selects(s: Sys, p: Pid, r: Refresh): Sys { Next(Next(Next(s, Ask(p, r)), Serialise(p)), Select(p, false)) }

  lemma SelectFinds(s: Sys, p: Pid, r: Refresh)
    requires p in s.procs && s.procs[p] == Refreshing(r, Serialised)
    requires Hits(s, r.sub, r.jti) && r.jti !in s.rowLock
    ensures Next(s, Select(p, false)) == Moved(s.(rowLock := s.rowLock[r.jti := p]), p, Refreshing(r, Held))
  {
  }

  lemma SelectMisses(s: Sys, p: Pid, r: Refresh)
    requires p in s.procs && s.procs[p] == Refreshing(r, Serialised) && !Alive(s, r.jti)
    ensures Next(s, Select(p, false)) == Moved(s, p, Refreshing(r, Replaying))
  {
  }

  lemma RevokedReplays(s: Sys, p: Pid, r: Refresh)
    requires r in s.tickets && p !in s.procs && LockKey(r.sub) !in s.advisory && !Alive(s, r.jti)
    ensures Selects(s, p, r) == InCritical(s, p, r, Replaying)
  {
    AskMoves(s, p, r);
    SerialiseLocks(s, p, r);
    SelectMisses(InCritical(s, p, r, Serialised), p, r);
    var s1 := s.(advisory := s.advisory[LockKey(r.sub) := p]);
    Overwritten(s1, p, Refreshing(r, Serialised), Refreshing(r, Replaying));
  }

  function Holding(s: Sys, p: Pid, r: Refresh): Sys {
    InCritical(s.(rowLock := s.rowLock[r.jti := p]), p, r, Held)
  }

  lemma AliveIsHeld(s: Sys, p: Pid, r: Refresh)
    requires r in s.tickets && p !in s.procs && LockKey(r.sub) !in s.advisory
    requires Hits(s, r.sub, r.jti) && r.jti !in s.rowLock
    ensures Selects(s, p, r) == Holding(s, p, r)
  {
    AskMoves(s, p, r);
    SerialiseLocks(s, p, r);
    SelectFinds(InCritical(s, p, r, Serialised), p, r);
    assert s.procs[p := Refreshing(r, Serialised)][p := Refreshing(r, Held)] == s.procs[p := Refreshing(r, Held)];
  }

  lemma RotateCommits(s: Sys, p: Pid, r: Refresh, role: Role, version: int, sid: SessionId)
    requires p in s.procs && s.procs[p] == Refreshing(r, Renewing(role, version)) && sid !in s.sessions && sid != r.jti
    ensures var s' := Next(s, Rotate(p, sid));
            && Hits(s', r.sub, sid) && s'.rowLock == Without(s.rowLock, p)
            && s'.procs == s.procs[p := Refreshing(r, Rotated)]
  {
    assert Next(s, Rotate(p, sid)) == Renewed(s, p, r, role, version, sid);
  }

  lemma OwnerIsRead(s: Sys, p: Pid, r: Refresh)
    requires p in s.procs && s.procs[p] == Refreshing(r, Held)
    requires r.sub in s.rows && s.rows[r.sub].status == Status.Active
    ensures var renewing := Renewing(s.rows[r.sub].role, s.rows[r.sub].version);
            Next(Next(s, DropKey(p)), ReadOwner(p))
            == Moved(s.(keys := s.keys - {r.jti}), p, Refreshing(r, renewing))
  {
    var s1 := s.(keys := s.keys - {r.jti});
    var cleared := Moved(s1, p, Refreshing(r, Cleared));
    assert Next(s, DropKey(p)) == cleared;
    assert Next(cleared, ReadOwner(p)) == Owned(cleared, p, r);
    Overwritten(s1, p, Refreshing(r, Cleared), Refreshing(r, Renewing(s.rows[r.sub].role, s.rows[r.sub].version)));
  }

  /** What is left of a refresh that holds its row. */
  function Finishes(s: Sys, p: Pid, sid: SessionId): Sys {
    Next(Next(Next(s, DropKey(p)), ReadOwner(p)), Rotate(p, sid))
  }

  lemma HeldCommits(s: Sys, p: Pid, r: Refresh, sid: SessionId)
    requires p in s.procs && s.procs[p] == Refreshing(r, Held) && sid !in s.sessions && sid != r.jti
    requires r.sub in s.rows && s.rows[r.sub].status == Status.Active
    ensures var s' := Finishes(s, p, sid);
            && Hits(s', r.sub, sid) && s'.rowLock == Without(s.rowLock, p)
            && s'.procs == s.procs[p := Refreshing(r, Rotated)]
  {
    OwnerIsRead(s, p, r);
    var row := s.rows[r.sub];
    RotateCommits(Next(Next(s, DropKey(p)), ReadOwner(p)), p, r, row.role, row.version, sid);
    assert s.procs[p := Refreshing(r, Renewing(row.role, row.version))][p := Refreshing(r, Rotated)]
        == s.procs[p := Refreshing(r, Rotated)];
  }

  lemma SeizeLocks(s: Sys, q: Pid, u: UserId, ids: set<SessionId>)
    requires q in s.procs && s.procs[q] == Sweeping(u, ids, false) && Unlocked(s, ids)
    ensures var taken := StillAlive(s, ids);
            Next(s, Seize(q)) == Moved(Locked(s, q, taken), q, Sweeping(u, taken, true))
  {
  }

  lemma CommitSweepSpares(s: Sys, q: Pid, u: UserId, ids: set<SessionId>, sid: SessionId)
    requires q in s.procs && s.procs[q] == Sweeping(u, ids, true) && Hits(s, u, sid) && sid !in ids
    ensures SweepSpares(s, q, u, sid)
  {
    CommitBuries(s, q, ids, u, sid);
  }

  /** A revoke-all begins while a refresh of the user holds its row, and waits for it. */
  function RotationInSweep(s: Sys, q: Pid, u: UserId, p: Pid, sid: SessionId): Sys {
    Next(Finishes(Next(s, Sweep(q, u)), p, sid), Seize(q))
  }

  /** From any state where a refresh of an active account holds its row, and nobody else holds one of
      the user's: the session it goes on to commit survives a revoke-all that began before. */
  lemma SweepCanBeOutlived(s: Sys, q: Pid, p: Pid, r: Refresh, sid: SessionId)
    requires p in s.procs && s.procs[p] == Refreshing(r, Held) && q !in s.procs
    requires sid !in s.sessions && r.jti in s.sessions
    requires r.sub in s.rows && s.rows[r.sub].status == Status.Active
    requires forall x | x in AliveOf(s, r.sub) && x in s.rowLock :: s.rowLock[x] == p
    ensures SweepSpares(RotationInSweep(s, q, r.sub, p, sid), q, r.sub, sid)
  {
    var s1 := Moved(s, q, Sweeping(r.sub, AliveOf(s, r.sub), false));
    assert Next(s, Sweep(q, r.sub)) == s1;
    HeldCommits(s1, p, r, sid);
    var s2 := Finishes(s1, p, sid);
    SeizeLocks(s2, q, r.sub, AliveOf(s, r.sub));
    CommitSweepSpares(Next(s2, Seize(q)), q, r.sub, StillAlive(s2, AliveOf(s, r.sub)), sid);
  }

  // ----- And such states are reached -----

  /** A user has logged in once, as process 0 with session 0, and nothing else is going on. */
  predicate OneLogin(s: Sys, u: UserId) {
    && u in s.rows && s.rows[u].status == Status.Active && Refresh(u, 0) in s.tickets
    && s.sessions.Keys == {0} && s.sessions[0].owner == u && s.procs.Keys == {0}
    && s.rowLock == map[] && s.advisory == map[]
  }

  lemma OnlyMint(s: Sys, u: UserId)
    requires s == Moved(Committed(IDLE, u, Row(Role.User, Status.Active, 1)), 0, Opening(u, Role.User, 1))
    ensures OneLogin(Next(s, Mint(0, 0)), u) && Alive(Next(s, Mint(0, 0)), 0)
  {
    assert Next(s, Mint(0, 0)) == Ended(Born(s, 0, u, Role.User, 1, false), 0, Done);
  }

  lemma LoginIsReached(u: UserId) returns (s: Sys)
    ensures Scheduled(s) && OneLogin(s, u) && Alive(s, 0)
  {
    var s2 := Next(Next(IDLE, NewUser(u)), Open(0, u));
    assert StateAfter([]) == IDLE;
    ScheduledNext(IDLE, NewUser(u));
    ScheduledNext(Next(IDLE, NewUser(u)), Open(0, u));
    ScheduledNext(s2, Mint(0, 0));
    FirstOpen(u);
    OnlyMint(s2, u);
    s := Next(s2, Mint(0, 0));
  }

  lemma SelectsIsReached(s: Sys, p: Pid, r: Refresh)
    requires Scheduled(s)
    ensures Scheduled(Selects(s, p, r))
  {
    ScheduledNext(s, Ask(p, r));
    ScheduledNext(Next(s, Ask(p, r)), Serialise(p));
    ScheduledNext(Next(Next(s, Ask(p, r)), Serialise(p)), Select(p, false));
  }

  lemma LoginInReplayIsReached(s: Sys, q: Pid, p: Pid, u: UserId, sid: SessionId)
    requires Scheduled(s)
    ensures Scheduled(LoginInReplay(s, q, p, u, sid))
  {
    ScheduledNext(s, Scan(q));
    ScheduledNext(Next(s, Scan(q)), RevokeAll(q));
    ScheduledNext(Next(Next(s, Scan(q)), RevokeAll(q)), Open(p, u));
    ScheduledNext(Next(Next(Next(s, Scan(q)), RevokeAll(q)), Open(p, u)), Mint(p, sid));
  }

  lemma RotationInSweepIsReached(s: Sys, q: Pid, u: UserId, p: Pid, sid: SessionId)
    requires Scheduled(s)
    ensures Scheduled(RotationInSweep(s, q, u, p, sid))
  {
    var s1 := Next(s, Sweep(q, u));
    ScheduledNext(s, Sweep(q, u));
    ScheduledNext(s1, DropKey(p));
    ScheduledNext(Next(s1, DropKey(p)), ReadOwner(p));
    ScheduledNext(Next(Next(s1, DropKey(p)), ReadOwner(p)), Rotate(p, sid));
    ScheduledNext(Finishes(s1, p, sid), Seize(q));
  }

  /** Some schedule has a replay that a session of its user survives. */
  lemma SomeReplayIsOutlived(u: UserId)
    ensures exists s :: Scheduled(s) && ReplaySpares(s, 1, u, 1)
  {
    var s0 := LoginIsReached(u);
    var r, s1 := Refresh(u, 0), Next(s0, RevokeRow(0));
    ScheduledNext(s0, RevokeRow(0));
    RowRevoked(s0, 0);
    RevokedReplays(s1, 1, r);
    SelectsIsReached(s1, 1, r);
    var s2 := Selects(s1, 1, r);
    ReplayCanBeOutlived(s2, 1, r, 2, 1);
    LoginInReplayIsReached(s2, 1, 2, u, 1);
  }

  /** Some schedule has a revoke-all that a session of its user survives. */
  lemma SomeSweepIsOutlived(u: UserId)
    ensures exists s :: Scheduled(s) && SweepSpares(s, 2, u, 1)
  {
    var s0 := LoginIsReached(u);
    var r := Refresh(u, 0);
    AliveIsHeld(s0, 1, r);
    SelectsIsReached(s0, 1, r);
    var s1 := Selects(s0, 1, r);
    SweepCanBeOutlived(s1, 2, 1, r, 1);
    RotationInSweepIsReached(s1, 2, u, 1, 1);
  }
}
