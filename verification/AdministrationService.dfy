/** The use cases that change a role or a status, as they run. Each commits its whole effect or
    nothing, and by the time a new version is committed Redis already knows it. */
module AdministrationService {
  import opened Domain
  import opened AccessStore
  import opened Tables
  import opened Authentication
  import opened Administration
  import opened AuthenticationService

  /** Redis has been told of at least this version of the user. */
  ghost predicate Told(cache: Cache, u: UserId, version: int) {
    u in cache.versions && version <= cache.versions[u]
  }

  /** The committed database is the old one, or the whole change with Redis already told. */
  ghost predicate WholeOrNothing(before: Db, after: Db, whole: Db, cache: Cache, u: UserId) {
    after == before || (after == whole && u in whole.users && Told(cache, u, whole.users[u].version))
  }

  /** The database holds the next version of the user's row with another role, and Redis knows it. */
  ghost predicate RoleChanged(before: Db, after: Db, cache: Cache, u: UserId, role: Role) {
    RoleWritten(before, after, u, role) && Told(cache, u, before.users[u].version + 1)
  }

  /** The same for a status. */
  ghost predicate StatusChanged(before: Db, after: Db, cache: Cache, u: UserId, status: Status) {
    StatusWritten(before, after, u, status) && Told(cache, u, before.users[u].version + 1)
  }

  method PublishAndCommit(db: Database, cache: RedisAccessStateStore, u: UserId, row: UserRow, publishFault: Fault,
                          commitFault: Fault)
    returns (ok: bool)
    requires u in db.working.users && db.working.users[u] == row
    modifies db, cache
    ensures WholeOrNothing(old(db.committed), db.committed, old(db.working), cache.Contents(), u)
    ensures ok ==> db.working == db.committed == old(db.working)
    ensures ok ==> cache.Contents() == Published(old(cache.Contents()), u, row.version)
    ensures publishFault.Silent? && commitFault.Silent? ==> ok
  {
    ok := cache.SetAuthorizationVersion(u, row.version, publishFault);
    if !ok { return; }
    ok := db.Commit(commitFault);
  }

  lemma RoleIsWritten(db: Db, u: UserId, role: Role)
    requires u in db.users
    ensures RoleWritten(db, WithRole(db, u, role), u, role) && u in WithRole(db, u, role).users
    ensures WithRole(db, u, role).users[u].version == db.users[u].version + 1
  {
  }

  /** The try block that change_user_role.py and bootstrap_super_admin.py share. */
  method UpdateRoleAndCommit(db: Database, cache: RedisAccessStateStore, u: UserId, role: Role, updateFault: Fault,
                             publishFault: Fault, commitFault: Fault)
    returns (r: Result<()>)
    modifies db, cache
    ensures db.working == db.committed
    ensures WholeOrNothing(old(db.committed), db.committed, WithRole(old(db.working), u, role), cache.Contents(), u)
    ensures r.Ok? || db.committed != old(db.committed) ==>
        RoleChanged(old(db.working), db.committed, cache.Contents(), u, role)
    ensures updateFault.Silent? && publishFault.Silent? && commitFault.Silent? ==>
        if u in old(db.working.users) then
          && r == Ok(())
          && cache.Contents() == Published(old(cache.Contents()), u, old(db.working.users)[u].version + 1)
        else r == Err(UserNotFound) && db.committed == old(db.committed) && cache.Contents() == old(cache.Contents())
  {
    r := Err(DependencyFailure);
    var ok, updated := db.UpdateRole(u, role, updateFault);
    if ok {
      if updated.None? {
        r := Err(UserNotFound);
      } else {
        RoleIsWritten(old(db.working), u, role);
        ok := PublishAndCommit(db, cache, u, updated.value, publishFault, commitFault);
        if ok { return Ok(()); }
      }
    }
    db.Rollback();
  }

  /** change_user_role.py */
  method ChangeUserRole(db: Database, cache: RedisAccessStateStore, actor: Role, target: UserId, role: Role,
                        faults: seq<Fault>)
    returns (r: Result<()>)
    requires db.working == db.committed
    modifies db, cache
    ensures db.working == db.committed
    ensures WholeOrNothing(old(db.committed), db.committed, WithRole(old(db.committed), target, role),
        cache.Contents(), target)
    ensures r.Ok? || db.committed != old(db.committed) ==>
        actor.SuperAdmin? && RoleChanged(old(db.committed), db.committed, cache.Contents(), target, role)
    ensures Quiet(faults) ==>
        ChangeRoleOutcome(old(View(db, cache)), actor, target, role) == Outcome(View(db, cache), r)
  {
    if !actor.SuperAdmin? { return Err(Forbidden); }
    r := UpdateRoleAndCommit(db, cache, target, role, FaultAt(faults, 0), FaultAt(faults, 1), FaultAt(faults, 2));
  }

  /** The try block that change_user_status.py and request_account_deletion.py share. */
  method UpdateStatusAndCommit(db: Database, cache: RedisAccessStateStore, u: UserId, status: Status,
                               faults: seq<Fault>)
    returns (r: Result<()>)
    requires db.working == db.committed && u in db.working.users
    modifies db, cache
    ensures db.working == db.committed
    ensures WholeOrNothing(old(db.committed), db.committed, WithStatus(old(db.committed), u, status),
        cache.Contents(), u)
    ensures r.Ok? || db.committed != old(db.committed) ==>
        StatusChanged(old(db.committed), db.committed, cache.Contents(), u, status)
    ensures Quiet(faults) ==> Outcome(StatusSet(old(View(db, cache)), u, status), Ok(())) == Outcome(View(db, cache), r)
  {
    var ok, updated := db.UpdateStatus(u, status, FaultAt(faults, 1));
    if ok {
      ok := PublishAndCommit(db, cache, u, updated.value, FaultAt(faults, 2), FaultAt(faults, 3));
      if ok { return Ok(()); }
    }
    db.Rollback();
    r := Err(DependencyFailure);
  }

  /** change_user_status.py */
  method ChangeUserStatus(db: Database, cache: RedisAccessStateStore, actor: Role, target: UserId, status: Status,
                          faults: seq<Fault>)
    returns (r: Result<()>)
    requires db.working == db.committed
    modifies db, cache
    ensures db.working == db.committed
    ensures WholeOrNothing(old(db.committed), db.committed, WithStatus(old(db.committed), target, status),
        cache.Contents(), target)
    ensures r.Ok? || db.committed != old(db.committed) ==>
        && StatusChanged(old(db.committed), db.committed, cache.Contents(), target, status)
        && CanManage(actor, old(db.committed.users)[target].role)
    ensures Quiet(faults) ==>
        ChangeStatusOutcome(old(View(db, cache)), actor, target, status) == Outcome(View(db, cache), r)
  {
    var ok, row := db.GetUser(target, FaultAt(faults, 0));
    if !ok { return Err(DependencyFailure); }
    if row.None? { return Err(UserNotFound); }
    if !CanManage(actor, row.value.role) { return Err(Forbidden); }
    r := UpdateStatusAndCommit(db, cache, target, status, faults);
  }

  /** request_account_deletion.py */
  method RequestAccountDeletion(db: Database, cache: RedisAccessStateStore, u: UserId, faults: seq<Fault>)
    returns (r: Result<()>)
    requires db.working == db.committed
    modifies db, cache
    ensures db.working == db.committed
    ensures WholeOrNothing(old(db.committed), db.committed, WithStatus(old(db.committed), u, DeletionRequested),
        cache.Contents(), u)
    ensures r.Ok? || db.committed != old(db.committed) ==>
        && StatusChanged(old(db.committed), db.committed, cache.Contents(), u, DeletionRequested)
        && old(db.committed.users)[u].status.Active?
    ensures Quiet(faults) ==> RequestDeletionOutcome(old(View(db, cache)), u) == Outcome(View(db, cache), r)
  {
    var ok, row := db.GetUser(u, FaultAt(faults, 0));
    if !ok { return Err(DependencyFailure); }
    if row.None? { return Err(UserNotFound); }
    if !row.value.status.Active? { return Err(InvalidStatusTransition); }
    r := UpdateStatusAndCommit(db, cache, u, DeletionRequested, faults);
  }

  /** Redis has the new version and none of the user's indexed session keys. */
  ghost predicate Dismissed(before: Cache, after: Cache, whole: Db, u: UserId) {
    u in whole.users && after == Swept(Published(before, u, whole.users[u].version), u)
  }

  method ApproveBody(db: Database, cache: RedisAccessStateStore, now: Instant, target: UserId, faults: seq<Fault>)
    returns (ok: bool)
    requires db.working == db.committed && target in db.working.users
    modifies db, cache
    ensures var whole := RevokedForUser(WithStatus(old(db.committed), target, Deleted), target, now);
            && WholeOrNothing(old(db.committed), db.committed, whole, cache.Contents(), target)
            && (ok ==> db.working == db.committed == whole)
            && (ok || db.committed != old(db.committed) ==>
                  Dismissed(old(cache.Contents()), cache.Contents(), whole, target))
    ensures Quiet(faults) ==>
        ok && View(db, cache) == RevokeEverything(StatusSet(old(View(db, cache)), target, Deleted), target, now)
  {
    var updated;
    ok, updated := db.UpdateStatus(target, Deleted, FaultAt(faults, 1));
    if !ok { return; }
    ok := db.RevokeAllActiveForUser(target, now, FaultAt(faults, 2));
    if !ok { return; }
    ok := cache.SetAuthorizationVersion(target, updated.value.version, FaultAt(faults, 3));
    if !ok { return; }
    ok := cache.RevokeAllSessions(target, FaultAt(faults, 4), FaultAt(faults, 5));
    if !ok { return; }
    ok := db.Commit(FaultAt(faults, 6));
  }

  /** approve_user_deletion_request.py */
  method ApproveUserDeletion(db: Database, cache: RedisAccessStateStore, now: Instant, actor: Role, target: UserId,
                             faults: seq<Fault>)
    returns (r: Result<()>)
    requires db.working == db.committed
    modifies db, cache
    ensures db.working == db.committed
    ensures var whole := RevokedForUser(WithStatus(old(db.committed), target, Deleted), target, now);
            && WholeOrNothing(old(db.committed), db.committed, whole, cache.Contents(), target)
            && (r.Ok? || db.committed != old(db.committed) ==>
                  Dismissed(old(cache.Contents()), cache.Contents(), whole, target))
    ensures r.Ok? || db.committed != old(db.committed) ==>
      && DeletionWritten(old(db.committed), db.committed, target, now)
      && var before := old(db.committed.users)[target];
         CanManage(actor, before.role) && before.status.DeletionRequested?
    ensures Quiet(faults) ==>
        ApproveDeletionOutcome(old(View(db, cache)), now, actor, target) == Outcome(View(db, cache), r)
  {
    var ok, row := db.GetUser(target, FaultAt(faults, 0));
    if !ok { return Err(DependencyFailure); }
    if row.None? { return Err(UserNotFound); }
    if !CanManage(actor, row.value.role) { return Err(Forbidden); }
    if !row.value.status.DeletionRequested? { return Err(InvalidStatusTransition); }
    ok := ApproveBody(db, cache, now, target, faults);
    if ok { return Ok(()); }
    db.Rollback();
    r := Err(DependencyFailure);
  }

  /** bootstrap_super_admin.py. get_or_create and the first commit stand outside the try block;
      an exception there ends the transaction without a commit. */
  method BootstrapSuperAdmin(db: Database, cache: RedisAccessStateStore, email: string, newUser: UserId,
                             faults: seq<Fault>)
    returns (r: Result<()>)
    requires db.working == db.committed
    requires email in db.committed.emails ==> db.committed.emails[email] in db.committed.users
    modifies db, cache
    ensures db.committed == db.working
    ensures var u := UserFor(old(db.committed), email, newUser);
            var whole := WithRole(WithUser(old(db.committed), email, newUser), u, SuperAdmin);
            WholeOrNothing(old(db.committed), db.committed, whole, cache.Contents(), u)
    ensures r.Ok? ==> email in db.committed.emails && db.committed.emails[email] in db.committed.users
                      && db.committed.users[db.committed.emails[email]].role.SuperAdmin?
    ensures Quiet(faults) ==> r.Ok? && View(db, cache) == BootstrapStores(old(View(db, cache)), email, newUser)
  {
    var ok, u := db.GetOrCreateUser(email, newUser, FaultAt(faults, 0));
    if !ok { db.Rollback(); return Err(DependencyFailure); }
    if db.working.users[u].role.SuperAdmin? {
      ok := db.Commit(FaultAt(faults, 1));
      if ok { return Ok(()); }
      db.Rollback();
      return Err(DependencyFailure);
    }
    r := UpdateRoleAndCommit(db, cache, u, SuperAdmin, FaultAt(faults, 1), FaultAt(faults, 2), FaultAt(faults, 3));
  }
}
