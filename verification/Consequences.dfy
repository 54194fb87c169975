/** What the answers and effects of single requests mean for the tokens in circulation, over every
    continuation. */
module Consequences {
  import opened Domain
  import opened Service
  import opened Coherence
  import opened Reachability
  import opened Guarantees
  import opened Rotation
  import opened Accounts
  import opened Verdicts
  import opened Requests
  import opened Codes

  // ----- a new pair is good -----

  /** The access token of a login is accepted at once, if the account is active and the configured
      lives are not over yet. */
  lemma OpenedIsAccepted(cfg: Config, w: World, op: Op)
    requires Reachable(cfg, w) && Enabled(w, op) && op.Verify? && Verdict(cfg, w, op).result.Ok?
    requires var t := Verdict(cfg, w, op).result.value.access;
             w.now < t.exp * SECOND && t.sub in w.st.db.users && w.st.db.users[t.sub].status.Active?
    requires 0 <= cfg.RefreshLifetime()
    ensures var t := Verdict(cfg, w, op).result.value.access;
            Answer(AfterVerify(cfg, w, op), AccessToken(t)) == Ok(Principal(t.sub, t.sid, t.role, t.av))
  {
    VerifySucceedsExactly(cfg, w, op);
    RightCodeOpens(cfg, w, op);
    Reaches(cfg, w, op);
    ValidateDecides(cfg, AfterVerify(cfg, w, op), Verdict(cfg, w, op).result.value.access);
  }

  /** So is that of a rotation. */
  lemma RotatedIsAccepted(cfg: Config, w: World, op: Op, c: RefreshClaims)
    requires Reachable(cfg, w) && Presents(w, op, c) && OutcomeOf(cfg, w, op).result.Ok?
    requires w.now < OutcomeOf(cfg, w, op).result.value.access.exp * SECOND && 0 <= cfg.RefreshLifetime()
    ensures var t := OutcomeOf(cfg, w, op).result.value.access;
            Answer(AfterRefresh(cfg, w, op), AccessToken(t)) == Ok(Principal(t.sub, t.sid, t.role, t.av))
  {
    RefreshDecides(cfg, w, op, c);
    RotationIsExact(cfg, w, op, c);
    Reaches(cfg, w, op);
    ValidateDecides(cfg, AfterRefresh(cfg, w, op), OutcomeOf(cfg, w, op).result.value.access);
  }

  // ----- a raised version ends every token of before -----

  /** A token whose version the account has left behind is refused for good, with no exception for
      any cached key. */
  lemma OutdatedIsFinal(cfg: Config, w: World, ops: seq<Op>, t: AccessClaims)
    requires Reachable(cfg, w) && ValidRun(cfg, w, ops)
    requires t.sub in w.st.db.users && t.av < w.st.db.users[t.sub].version
    ensures Answer(Run(cfg, w, ops), AccessToken(t)).Err?
  {
    var last := Run(cfg, w, ops);
    RunReaches(cfg, w, ops);
    RunKeepsAccounts(cfg, w, ops);
    UndecodedIsRefused(last, AccessToken(t));
    if t in last.hist.issued.access && last.now < t.exp * SECOND { ValidateDecides(cfg, last, t); }
  }

  /** The account whose role or status the request is about. */
  function Subject(op: Op, p: Principal): UserId
    requires op.ChangeRole? || op.ChangeStatus? || op.ApproveDeletion? || op.RequestDeletion?
  {
    if op.RequestDeletion? then p.user else op.target
  }

  lemma ChangeRaises(cfg: Config, w: World, op: Op, p: Principal)
    requires op.ChangeRole? || op.ChangeStatus? || op.ApproveDeletion? || op.RequestDeletion?
    requires Reachable(cfg, w) && Answer(w, op.token) == Ok(p)
    requires Request(w, op).result.Ok?
    ensures var u, after := Subject(op, p), Request(w, op).stores.db.users;
            u in w.st.db.users && u in after && after[u].version == w.st.db.users[u].version + 1
  {
    if op.ChangeRole? { ChangeRoleDecides(cfg, w, op, p); }
    else if op.ChangeStatus? { ChangeStatusDecides(cfg, w, op, p); }
    else if op.ApproveDeletion? { ApproveDeletionDecides(cfg, w, op, p); }
    else { RequestDeletionDecides(cfg, w, op, p); }
  }

  /** After a successful change of role or status, every access token signed for the account so far
      is refused in every continuation. */
  lemma ChangeEndsTokens(cfg: Config, w: World, op: Op, p: Principal, ops: seq<Op>, t: AccessClaims)
    requires op.ChangeRole? || op.ChangeStatus? || op.ApproveDeletion? || op.RequestDeletion?
    requires Reachable(cfg, w) && Answer(w, op.token) == Ok(p)
    requires Request(w, op).result.Ok? && ValidRun(cfg, Apply(cfg, w, op), ops)
    requires t in w.hist.issued.access && t.sub == Subject(op, p)
    ensures Answer(Run(cfg, Apply(cfg, w, op), ops), AccessToken(t)).Err?
  {
    ReachableHolds(cfg, w);
    assert AccessOk(cfg, w.st.db, t);
    ChangeRaises(cfg, w, op, p);
    Reaches(cfg, w, op);
    OutdatedIsFinal(cfg, Apply(cfg, w, op), ops, t);
  }

  // ----- revoking everything ends every session -----

  ghost predicate AllRevoked(w: World, u: UserId) {
    forall s | s in w.st.db.sessions && w.st.db.sessions[s].owner == u :: w.st.db.sessions[s].revokedAt.Some?
  }

  /** No refresh token of a revoked session ever gives a pair again. */
  lemma RevokedNeverRotates(cfg: Config, w: World, ops: seq<Op>, c: RefreshClaims, op: Op)
    requires Reachable(cfg, w) && ValidRun(cfg, w, ops) && IsRevoked(w, c.jti)
    requires op.Refresh? && op.token == RefreshToken(c) && Enabled(Run(cfg, w, ops), op)
    ensures OutcomeOf(cfg, Run(cfg, w, ops), op).result.Err?
  {
    var last := Run(cfg, w, ops);
    RunReaches(cfg, w, ops);
    RunContinues(cfg, w, ops);
    UndecodedIsNotRefreshed(cfg, last, op);
    if c in last.hist.issued.refresh && op.seen < c.exp * SECOND {
      RefreshDecides(cfg, last, op, c);
    }
  }

  /** Once all sessions of a user are revoked, none of the tokens signed for the user until then is
      good for anything in any continuation, the second of grace of an access token aside. */
  lemma RevokedUserIsOut(cfg: Config, w: World, u: UserId, ops: seq<Op>, t: AccessClaims, c: RefreshClaims, op: Op)
    requires Reachable(cfg, w) && ValidRun(cfg, w, ops) && AllRevoked(w, u)
    requires t in w.hist.issued.access && t.sub == u && c in w.hist.issued.refresh && c.sub == u
    requires op.Refresh? && op.token == RefreshToken(c) && Enabled(Run(cfg, w, ops), op)
    ensures var last := Run(cfg, w, ops);
            && (!InGrace(last, t.sid) ==> Answer(last, AccessToken(t)).Err?)
            && OutcomeOf(cfg, last, op).result.Err?
  {
    ReachableHolds(cfg, w);
    assert AccessOk(cfg, w.st.db, t) && RefreshOk(w.st.db, c);
    RevocationIsFinal(cfg, w, ops, t);
    RevokedNeverRotates(cfg, w, ops, c, op);
  }

  /** So it is after a revoke-all. */
  lemma RevokeAllEndsTokens(cfg: Config, w: World, request: Op, p: Principal, ops: seq<Op>, t: AccessClaims,
                            c: RefreshClaims, op: Op)
    requires Reachable(cfg, w) && request.RevokeAll? && Answer(w, request.token) == Ok(p)
    requires ValidRun(cfg, Apply(cfg, w, request), ops)
    requires t in w.hist.issued.access && t.sub == p.user && c in w.hist.issued.refresh && c.sub == p.user
    requires op.Refresh? && op.token == RefreshToken(c) && Enabled(Run(cfg, Apply(cfg, w, request), ops), op)
    ensures var last := Run(cfg, Apply(cfg, w, request), ops);
            && (!InGrace(last, t.sid) ==> Answer(last, AccessToken(t)).Err?)
            && OutcomeOf(cfg, last, op).result.Err?
  {
    RevokeAllDecides(cfg, w, request, p);
    Reaches(cfg, w, request);
    RevokedUserIsOut(cfg, Apply(cfg, w, request), p.user, ops, t, c, op);
  }
}
