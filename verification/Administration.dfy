/** The use cases that change a user's role or status. Each bumps the authorization version
    and publishes it to Redis before the commit.
    app/modules/users/application/use_cases/ */
module Administration {
  import opened Domain
  import opened AccessStore
  import opened Tables
  import opened Authentication

  /** _permissions.py */
  predicate CanManage(actor: Role, target: Role) {
    actor.SuperAdmin? || (actor.Admin? && target.User?)
  }

  function Publish(st: Stores, u: UserId): Stores {
    if u in st.db.users then st.(cache := Published(st.cache, u, st.db.users[u].version)) else st
  }

  function RoleSet(st: Stores, u: UserId, role: Role): Stores {
    Publish(st.(db := WithRole(st.db, u, role)), u)
  }

  function StatusSet(st: Stores, u: UserId, status: Status): Stores {
    Publish(st.(db := WithStatus(st.db, u, status)), u)
  }

  function ChangeRoleOutcome(st: Stores, actor: Role, target: UserId, role: Role): Outcome<()> {
    if !actor.SuperAdmin? then Outcome(st, Err(Forbidden))
    else if target !in st.db.users then Outcome(st, Err(UserNotFound))
    else Outcome(RoleSet(st, target, role), Ok(()))
  }

  function ChangeStatusOutcome(st: Stores, actor: Role, target: UserId, status: Status): Outcome<()> {
    if target !in st.db.users then Outcome(st, Err(UserNotFound))
    else if !CanManage(actor, st.db.users[target].role) then Outcome(st, Err(Forbidden))
    else Outcome(StatusSet(st, target, status), Ok(()))
  }

  function ApproveDeletionOutcome(st: Stores, now: Instant, actor: Role, target: UserId): Outcome<()> {
    if target !in st.db.users then Outcome(st, Err(UserNotFound))
    else if !CanManage(actor, st.db.users[target].role) then Outcome(st, Err(Forbidden))
    else if !st.db.users[target].status.DeletionRequested? then Outcome(st, Err(InvalidStatusTransition))
    else Outcome(RevokeEverything(StatusSet(st, target, Deleted), target, now), Ok(()))
  }

  function RequestDeletionOutcome(st: Stores, u: UserId): Outcome<()> {
    if u !in st.db.users then Outcome(st, Err(UserNotFound))
    else if !st.db.users[u].status.Active? then Outcome(st, Err(InvalidStatusTransition))
    else Outcome(StatusSet(st, u, DeletionRequested), Ok(()))
  }

  function BootstrapStores(st: Stores, email: string, newUser: UserId): Stores {
    var db := WithUser(st.db, email, newUser);
    var u := UserFor(st.db, email, newUser);
    if u in db.users && db.users[u].role.SuperAdmin? then st.(db := db)
    else RoleSet(st.(db := db), u, SuperAdmin)
  }
}
