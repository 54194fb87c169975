/** app/common/pagination/utils.py and get_users.py: page arithmetic against list slicing. */
module Pagination {
  import opened Domain

  datatype Meta = Meta(page: int, limit: int, totalItems: int, totalPages: int, hasNext: bool, hasPrevious: bool)

  function Offset(page: int, limit: int): int { (page - 1) * limit }

  /** math.ceil(total / limit), exactly. */
  function TotalPages(total: int, limit: int): int
    requires limit >= 1
  {
    if total <= 0 then 0 else (total + limit - 1) / limit
  }

  function BuildMeta(page: int, limit: int, total: int): Meta
    requires limit >= 1
  {
    var pages := TotalPages(total, limit);
    Meta(page, limit, total, pages, if pages > 0 then page < pages else false, page > 1)
  }

  function Min(a: int, b: int): int { if a < b then a else b }

  /** SQL OFFSET and LIMIT on an ordered result. */
  function Slice<T>(rows: seq<T>, offset: int, limit: int): seq<T>
    requires offset >= 0 && limit >= 0
  {
    rows[Min(offset, |rows|)..Min(offset + limit, |rows|)]
  }

  function Page<T>(rows: seq<T>, page: int, limit: int): seq<T>
    requires page >= 1 && limit >= 1
  {
    OffsetBounds(page, limit);
    Slice(rows, Offset(page, limit), limit)
  }

  lemma OffsetBounds(page: int, limit: int)
    requires page >= 1 && limit >= 1
    ensures Offset(page, limit) >= 0 && Offset(page + 1, limit) == Offset(page, limit) + limit
  {
  }

  /** Pages 1 to n, one after the other. */
  function Pages<T>(rows: seq<T>, n: nat, limit: int): seq<T>
    requires limit >= 1
  {
    if n == 0 then [] else Pages(rows, n - 1, limit) + Page(rows, n, limit)
  }

  lemma NextPage<T>(rows: seq<T>, start: int, limit: int)
    requires start >= 0 && limit >= 1
    ensures rows[..Min(start, |rows|)] + Slice(rows, start, limit) == rows[..Min(start + limit, |rows|)]
  {
  }

  lemma {:induction false} FirstPages<T>(rows: seq<T>, n: nat, limit: int)
    requires limit >= 1
    ensures n * limit >= 0 && Pages(rows, n, limit) == rows[..Min(n * limit, |rows|)]
  {
    if n > 0 {
      FirstPages(rows, n - 1, limit);
      OffsetBounds(n, limit);
      NextPage(rows, Offset(n, limit), limit);
    }
  }

  /** The number of pages is the least that holds everything. */
  lemma TotalPagesIsLeast(total: nat, limit: int, n: nat)
    requires limit >= 1
    ensures total <= n * limit <==> TotalPages(total, limit) <= n
  {
    if total > 0 {
      var q := (total + limit - 1) / limit;
      var r := (total + limit - 1) % limit;
      assert total + limit - 1 == q * limit + r;
      if n >= q { assert n * limit >= q * limit; } else { assert (n + 1) * limit <= q * limit; }
    } else {
      assert n * limit >= 0;
    }
  }

  /** Reading pages 1 to total_pages gives the whole list, once and in order. */
  lemma PagesAreTheList<T>(rows: seq<T>, limit: int)
    requires limit >= 1
    ensures TotalPages(|rows|, limit) >= 0 && Pages(rows, TotalPages(|rows|, limit), limit) == rows
  {
    TotalPagesIsLeast(|rows|, limit, 0);
    var n: nat := TotalPages(|rows|, limit);
    TotalPagesIsLeast(|rows|, limit, n);
    FirstPages(rows, n, limit);
  }

  /** has_next says whether an item lies beyond the page, has_previous whether one may lie before it,
      and a page is empty exactly when it starts past the end. */
  lemma HasNextIsExact<T>(rows: seq<T>, page: int, limit: int)
    requires page >= 1 && limit >= 1
    ensures BuildMeta(page, limit, |rows|).hasNext <==> Offset(page, limit) + limit < |rows|
    ensures BuildMeta(page, limit, |rows|).hasNext <==> Page(rows, page + 1, limit) != []
    ensures Page(rows, page, limit) == [] <==> page > TotalPages(|rows|, limit)
    ensures BuildMeta(page, limit, |rows|).hasPrevious <==> Offset(page, limit) > 0
  {
    OffsetBounds(page, limit);
    TotalPagesIsLeast(|rows|, limit, page);
    TotalPagesIsLeast(|rows|, limit, page - 1);
  }

  // ----- get_users.py -----

  datatype Account = Account(id: UserId, role: Role, status: Status, verified: bool, completed: bool,
                             createdAt: Instant)

  /** A list request; search stands for the accounts its text matches, any text when absent. */
  datatype Request = Request(
    page: int,
    limit: int,
    role: Option<Role>,
    status: Option<Status>,
    verified: Option<bool>,
    completed: Option<bool>,
    from: Option<Instant>,
    until: Option<Instant>,
    search: Option<set<UserId>>)

  /** _user_conditions: the conditions present, all of which a row must meet. */
  predicate Meets(a: Account, role: Option<Role>, q: Request) {
    && (role.Some? ==> a.role == role.value)
    && (q.status.Some? ==> a.status == q.status.value)
    && (q.verified.Some? ==> a.verified == q.verified.value)
    && (q.completed.Some? ==> a.completed == q.completed.value)
    && (q.from.Some? ==> a.createdAt >= q.from.value)
    && (q.until.Some? ==> a.createdAt <= q.until.value)
    && (q.search.Some? ==> a.id in q.search.value)
  }

  function Selected(table: seq<Account>, role: Option<Role>, q: Request): seq<Account> {
    if table == [] then []
    else (if Meets(table[0], role, q) then [table[0]] else []) + Selected(table[1..], role, q)
  }

  datatype UsersPage = UsersPage(items: seq<Account>, meta: Meta)

  /** Which role the query is restricted to, or nothing when the answer is empty outright. */
  function RoleFilter(actor: Role, requested: Option<Role>): Option<Option<Role>> {
    if actor.SuperAdmin? then Some(requested)
    else if requested != None && requested != Some(Role.User) then None
    else Some(Some(Role.User))
  }

  /** table is the user table in the order the request sorts by. */
  function GetUsers(actor: Role, table: seq<Account>, q: Request): UsersPage
    requires q.page >= 1 && q.limit >= 1
  {
    match RoleFilter(actor, q.role)
    case None => UsersPage([], BuildMeta(q.page, q.limit, 0))
    case Some(role) =>
      var rows := Selected(table, role, q);
      UsersPage(Page(rows, q.page, q.limit), BuildMeta(q.page, q.limit, |rows|))
  }

  /** Everything the actor can collect: the items of pages 1 to n. */
  function Collected(actor: Role, table: seq<Account>, q: Request, n: nat): seq<Account>
    requires q.limit >= 1
  {
    if n == 0 then [] else Collected(actor, table, q, n - 1) + GetUsers(actor, table, q.(page := n)).items
  }

  lemma {:induction false} SelectedPage(table: seq<Account>, role: Option<Role>, q: Request, page: int)
    ensures Selected(table, role, q.(page := page)) == Selected(table, role, q)
  {
    if table != [] { SelectedPage(table[1..], role, q, page); }
  }

  lemma {:induction false} CollectedPages(actor: Role, table: seq<Account>, q: Request, n: nat, role: Option<Role>)
    requires q.limit >= 1 && RoleFilter(actor, q.role) == Some(role)
    ensures Collected(actor, table, q, n) == Pages(Selected(table, role, q), n, q.limit)
  {
    if n > 0 {
      CollectedPages(actor, table, q, n - 1, role);
      SelectedPage(table, role, q, n);
    }
  }

  /** The rows an actor may list: all that meet the request, restricted to role USER unless the
      actor is a SUPER_ADMIN. An independent account of the same thing. */
  predicate Visible(actor: Role, a: Account, q: Request) {
    Meets(a, q.role, q) && (actor.SuperAdmin? || a.role == Role.User)
  }

  function VisibleRows(actor: Role, table: seq<Account>, q: Request): seq<Account> {
    if table == [] then []
    else (if Visible(actor, table[0], q) then [table[0]] else []) + VisibleRows(actor, table[1..], q)
  }

  lemma {:induction false} SelectedIsVisible(actor: Role, table: seq<Account>, q: Request)
    ensures VisibleRows(actor, table, q) ==
            match RoleFilter(actor, q.role) case None => [] case Some(role) => Selected(table, role, q)
  {
    if table != [] { SelectedIsVisible(actor, table[1..], q); }
  }

  lemma {:induction false} NothingCollected(actor: Role, table: seq<Account>, q: Request, n: nat)
    requires q.limit >= 1 && RoleFilter(actor, q.role) == None
    ensures Collected(actor, table, q, n) == []
  {
    if n > 0 { NothingCollected(actor, table, q, n - 1); }
  }

  /** Paging through to the reported total collects exactly the rows the actor may list, in
      order; an ADMIN never meets an account of another role. */
  lemma CollectedIsVisible(actor: Role, table: seq<Account>, q: Request)
    requires q.page >= 1 && q.limit >= 1
    ensures var pages := GetUsers(actor, table, q).meta.totalPages;
            pages >= 0 && Collected(actor, table, q, pages) == VisibleRows(actor, table, q)
    ensures GetUsers(actor, table, q).meta.totalItems == |VisibleRows(actor, table, q)|
    ensures GetUsers(actor, table, q).items == Page(VisibleRows(actor, table, q), q.page, q.limit)
  {
    SelectedIsVisible(actor, table, q);
    match RoleFilter(actor, q.role)
    case None =>
      NothingCollected(actor, table, q, 0);
      OffsetBounds(q.page, q.limit);
    case Some(role) =>
      var rows := Selected(table, role, q);
      PagesAreTheList(rows, q.limit);
      CollectedPages(actor, table, q, TotalPages(|rows|, q.limit), role);
  }

  /** The conditions of a listing, one by one. */
  predicate Wanted(actor: Role, a: Account, q: Request) {
    && (actor == SuperAdmin || a.role == Role.User)
    && (q.role == None || q.role == Some(a.role)) && (q.status == None || q.status == Some(a.status))
    && (q.verified == None || q.verified == Some(a.verified))
    && (q.completed == None || q.completed == Some(a.completed))
    && (q.from.Some? ==> q.from.value <= a.createdAt) && (q.until.Some? ==> a.createdAt <= q.until.value)
    && (q.search.Some? ==> a.id in q.search.value)
  }

  ghost predicate Increasing(at: seq<nat>) { forall i, j | 0 <= i < j < |at| :: at[i] < at[j] }

  /** The rows are those at these places of the table, and all wanted. */
  ghost predicate Picks(actor: Role, table: seq<Account>, q: Request, rows: seq<Account>, at: seq<nat>) {
    |at| == |rows|
    && forall i | 0 <= i < |at| :: at[i] < |table| && rows[i] == table[at[i]] && Wanted(actor, rows[i], q)
  }

  ghost predicate Covers(actor: Role, table: seq<Account>, q: Request, at: seq<nat>) {
    forall k: nat | k < |table| && Wanted(actor, table[k], q) :: k in at
  }

  /** The rows are all the wanted ones of the table, each once, in its order. */
  ghost predicate Places(actor: Role, table: seq<Account>, q: Request, rows: seq<Account>, at: seq<nat>) {
    Increasing(at) && Picks(actor, table, q, rows, at) && Covers(actor, table, q, at)
  }

  function Shifted(at: seq<nat>): seq<nat> { seq(|at|, i requires 0 <= i < |at| => at[i] + 1) }

  lemma ShiftedCovers(actor: Role, table: seq<Account>, q: Request, at: seq<nat>, k: nat)
    requires table != [] && Covers(actor, table[1..], q, at)
    requires 0 < k < |table| && Wanted(actor, table[k], q)
    ensures k in Shifted(at)
  {
    assert table[1..][k - 1] == table[k];
    var i :| 0 <= i < |at| && at[i] == k - 1;
    assert Shifted(at)[i] == k;
  }

  lemma ShiftedPicks(actor: Role, table: seq<Account>, q: Request, rows: seq<Account>, at: seq<nat>)
    requires table != [] && Picks(actor, table[1..], q, rows, at)
    ensures Picks(actor, table, q, rows, Shifted(at))
    ensures Wanted(actor, table[0], q) ==> Picks(actor, table, q, [table[0]] + rows, [0] + Shifted(at))
  {
  }

  lemma ShiftedIncreases(at: seq<nat>)
    requires Increasing(at)
    ensures Increasing(Shifted(at)) && Increasing([0] + Shifted(at))
  {
  }

  lemma PlacesExtend(actor: Role, table: seq<Account>, q: Request, rows: seq<Account>, at: seq<nat>)
    requires table != [] && Places(actor, table[1..], q, rows, at)
    ensures if Wanted(actor, table[0], q) then Places(actor, table, q, [table[0]] + rows, [0] + Shifted(at))
            else Places(actor, table, q, rows, Shifted(at))
  {
    ShiftedPicks(actor, table, q, rows, at);
    ShiftedIncreases(at);
    forall k: nat | k < |table| && Wanted(actor, table[k], q) && k > 0 ensures k in Shifted(at) {
      ShiftedCovers(actor, table, q, at, k);
    }
  }

  lemma VisibleHead(actor: Role, table: seq<Account>, q: Request)
    requires table != []
    ensures var rest := VisibleRows(actor, table[1..], q);
            VisibleRows(actor, table, q) == if Wanted(actor, table[0], q) then [table[0]] + rest else rest
  {
    assert Visible(actor, table[0], q) <==> Wanted(actor, table[0], q);
  }

  lemma {:induction false} VisibleAt(actor: Role, table: seq<Account>, q: Request) returns (at: seq<nat>)
    ensures Places(actor, table, q, VisibleRows(actor, table, q), at)
    decreases |table|
  {
    if table == [] {
      at := [];
    } else {
      var rest := VisibleAt(actor, table[1..], q);
      VisibleHead(actor, table, q);
      PlacesExtend(actor, table, q, VisibleRows(actor, table[1..], q), rest);
      at := if Wanted(actor, table[0], q) then [0] + Shifted(rest) else Shifted(rest);
    }
  }

  /** Paging to the reported total collects every account that meets each condition given, and no
      other, each as often as the table has it and in the table's order. */
  lemma CollectedExactly(actor: Role, table: seq<Account>, q: Request) returns (at: seq<nat>)
    requires q.page >= 1 && q.limit >= 1
    ensures GetUsers(actor, table, q).meta.totalPages >= 0
    ensures Places(actor, table, q, Collected(actor, table, q, GetUsers(actor, table, q).meta.totalPages), at)
    ensures GetUsers(actor, table, q).meta.totalItems == |at|
  {
    CollectedIsVisible(actor, table, q);
    at := VisibleAt(actor, table, q);
  }
}
