/** app/modules/auth/infrastructure/redis_login_request_store.py: login requests in Redis. */
module LoginStore {
  import opened Domain

  datatype LoginRequest = LoginRequest(
    user: UserId,
    device: DeviceId,
    otp: OtpHash,
    attemptsLeft: int,
    expiresAt: Instant,
    consumedAt: Option<Instant>)

  /** A stored JSON value and the instant Redis drops it. */
  datatype Entry = Entry(request: LoginRequest, deadline: Instant)

  /** The set of request ids waiting on one device. */
  datatype Pending = Pending(ids: set<RequestId>, deadline: Instant)

  datatype Logins = Logins(
    requests: map<RequestId, Entry>,
    pending: map<(UserId, DeviceId), Pending>)

  const EMPTY_LOGINS := Logins(map[], map[])

  predicate Live(ls: Logins, now: Instant, id: RequestId) {
    id in ls.requests && now < ls.requests[id].deadline
  }

  function FindRequest(ls: Logins, now: Instant, id: RequestId): Option<LoginRequest> {
    if Live(ls, now, id) then Some(ls.requests[id].request) else None
  }

  /** Redis reports the remaining life of a key in whole seconds, off by at most one. */
  ghost predicate TtlReading(deadline: Instant, now: Instant, ttl: int) {
    deadline - now - SECOND <= ttl * SECOND <= deadline - now + SECOND
  }

  /** SET with the time to live re-derived from a reading of it. */
  function Rewritten(ls: Logins, now: Instant, id: RequestId, request: LoginRequest, ttl: int): Logins {
    ls.(requests := ls.requests[id := Entry(request, now + Max(1, ttl) * SECOND)])
  }

  function WithConsumed(ls: Logins, now: Instant, id: RequestId, at: Instant, ttl: int): Logins {
    if Live(ls, now, id)
    then Rewritten(ls, now, id, ls.requests[id].request.(consumedAt := Some(at)), ttl)
    else ls
  }

  function WithAttempts(ls: Logins, now: Instant, id: RequestId, left: int, ttl: int): Logins {
    if Live(ls, now, id)
    then Rewritten(ls, now, id, ls.requests[id].request.(attemptsLeft := left), ttl)
    else ls
  }

  function PendingIds(ls: Logins, now: Instant, u: UserId, d: DeviceId): set<RequestId> {
    if (u, d) in ls.pending && now < ls.pending[(u, d)].deadline then ls.pending[(u, d)].ids else {}
  }

  function WithoutPending(ls: Logins, now: Instant, u: UserId, d: DeviceId): Logins {
    Logins(ls.requests - PendingIds(ls, now, u, d), ls.pending - {(u, d)})
  }

  function CreationTtl(expiresAt: Instant, now: Instant): int {
    Max(1, TruncDiv(expiresAt - now, SECOND))
  }

  function WithRequest(ls: Logins, now: Instant, id: RequestId, request: LoginRequest): Logins {
    var deadline := now + CreationTtl(request.expiresAt, now) * SECOND;
    var where := (request.user, request.device);
    Logins(ls.requests[id := Entry(request, deadline)],
           ls.pending[where := Pending(PendingIds(ls, now, where.0, where.1) + {id}, deadline)])
  }

  function WithoutRequest(ls: Logins, now: Instant, id: RequestId): Logins {
    var found := FindRequest(ls, now, id);
    var requests := ls.requests - {id};
    if found.None? then ls.(requests := requests)
    else
      var where := (found.value.user, found.value.device);
      if where in ls.pending
      then Logins(requests, ls.pending[where := ls.pending[where].(ids := ls.pending[where].ids - {id})])
      else ls.(requests := requests)
  }

  /** One patch moves a live key's deadline by at most a second in either direction. */
  lemma PatchDrift(deadline: Instant, now: Instant, ttl: int)
    requires now < deadline && TtlReading(deadline, now, ttl)
    ensures now < now + Max(1, ttl) * SECOND <= deadline + SECOND
    ensures now + Max(1, ttl) * SECOND >= deadline - SECOND
  {
  }

  class RedisLoginRequestStore {
    var requests: map<RequestId, Entry>
    var pending: map<(UserId, DeviceId), Pending>

    constructor ()
      ensures Contents() == EMPTY_LOGINS
    {
      requests, pending := map[], map[];
    }

    function Contents(): Logins
      reads this
    {
      Logins(requests, pending)
    }

    method GetLoginRequest(id: RequestId, now: Instant, fault: Fault) returns (ok: bool, request: Option<LoginRequest>)
      ensures ok == fault.Silent? && request == FindRequest(Contents(), now, id)
    {
      ok, request := fault.Silent?, None;
      if id in requests && now < requests[id].deadline {
        request := Some(requests[id].request);
      }
    }

    /** The read, the TTL reading and the write share one fault: the first two change nothing. */
    method PatchConsumed(id: RequestId, at: Instant, now: Instant, ttl: int, fault: Fault) returns (ok: bool)
      modifies this
      ensures ok == fault.Silent?
      ensures Contents() == if fault.Before? then old(Contents())
                            else WithConsumed(old(Contents()), now, id, at, ttl)
    {
      ok := fault.Silent?;
      if fault.Before? || id !in requests || requests[id].deadline <= now { return; }
      var data := requests[id].request;
      data := data.(consumedAt := Some(at));
      requests := requests[id := Entry(data, now + Max(1, ttl) * SECOND)];
    }

    method PatchAttempts(id: RequestId, left: int, now: Instant, ttl: int, fault: Fault) returns (ok: bool)
      modifies this
      ensures ok == fault.Silent?
      ensures Contents() == if fault.Before? then old(Contents())
                            else WithAttempts(old(Contents()), now, id, left, ttl)
    {
      ok := fault.Silent?;
      if fault.Before? || id !in requests || requests[id].deadline <= now { return; }
      var data := requests[id].request;
      data := data.(attemptsLeft := left);
      requests := requests[id := Entry(data, now + Max(1, ttl) * SECOND)];
    }

    /** The listed requests go first, if there are any, and then the list. */
    method DeletePendingLogins(u: UserId, d: DeviceId, now: Instant, readFault: Fault, keysFault: Fault,
                               listFault: Fault)
      returns (ok: bool)
      modifies this
      ensures var ids := PendingIds(old(Contents()), now, u, d);
              && ok == (readFault.Silent? && (ids != {} ==> keysFault.Silent?) && listFault.Silent?)
              && Contents() ==
                 if !readFault.Silent? || (ids != {} && keysFault.Before?) then old(Contents())
                 else if (ids != {} && keysFault.After?) || listFault.Before?
                 then old(Contents()).(requests := old(requests) - ids)
                 else WithoutPending(old(Contents()), now, u, d)
    {
      ok := readFault.Silent?;
      if !ok { return; }
      var ids := {};
      if (u, d) in pending && now < pending[(u, d)].deadline {
        ids := pending[(u, d)].ids;
      }
      if ids != {} {
        ok := keysFault.Silent?;
        if !keysFault.Before? { requests := requests - ids; }
        if !ok { return; }
      } else {
        assert requests - ids == requests;
      }
      ok := listFault.Silent?;
      if !listFault.Before? { pending := pending - {(u, d)}; }
    }

    method CreateLoginRequest(id: RequestId, request: LoginRequest, now: Instant, fault: Fault) returns (ok: bool)
      modifies this
      ensures ok == fault.Silent?
      ensures Contents() == if fault.Before? then old(Contents()) else WithRequest(old(Contents()), now, id, request)
    {
      ok := fault.Silent?;
      if fault.Before? { return; }
      var deadline := now + CreationTtl(request.expiresAt, now) * SECOND;
      var waiting := PendingIds(Contents(), now, request.user, request.device);
      requests := requests[id := Entry(request, deadline)];
      pending := pending[(request.user, request.device) := Pending(waiting + {id}, deadline)];
    }

    method DeleteLoginRequest(id: RequestId, now: Instant, readFault: Fault, deleteFault: Fault, listFault: Fault)
      returns (ok: bool)
      modifies this
      ensures ok <==> readFault.Silent? && deleteFault.Silent?
                      && (FindRequest(old(Contents()), now, id).Some? ==> listFault.Silent?)
      ensures ok ==> Contents() == WithoutRequest(old(Contents()), now, id)
      ensures requests == if readFault.Silent? && !deleteFault.Before? then old(requests) - {id} else old(requests)
      ensures !ok ==> pending == old(pending) || Contents() == WithoutRequest(old(Contents()), now, id)
    {
      var request;
      ok, request := GetLoginRequest(id, now, readFault);
      if !ok { return; }
      ok := deleteFault.Silent?;
      if !deleteFault.Before? { requests := requests - {id}; }
      if !ok || request.None? { return; }
      ok := listFault.Silent?;
      var where := (request.value.user, request.value.device);
      if !listFault.Before? && where in pending {
        pending := pending[where := pending[where].(ids := pending[where].ids - {id})];
      }
    }
  }
}
