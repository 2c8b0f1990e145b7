/**
 The PostgreSQL statements behind the same store calls, as guarded updates of one row, and the exact extent to
 which they accept and write what the in-memory stores do.  In SQL a comparison with NULL is not true; an absent
 token, lease or conversation is NULL.
 */
module SqlGuards {
  import opened Prelude
  import A = Approvals
  import AR = ApprovalRuns
  import T = Turns
  import TR = TurnRuns

  // An interval of one minute, in nanoseconds.
  const MINUTE: int := 60_000_000_000

  // ---- approvals ----

  predicate LessThan(t: Option<int>, now: int) {
    t.Some? && t.value < now
  }

  predicate TokenIs(stored: A.Token, token: A.Token) {
    stored != A.NO_TOKEN && token != A.NO_TOKEN && stored == token
  }

  predicate IdIs(stored: Id, id: Id) {
    stored != NO_ID && id != NO_ID && stored == id
  }

  predicate SqlBeginGuard(a: A.Approval, conversationId: Id, now: int) {
    && IdIs(a.conversationId, conversationId)
    && a.status == A.Approved
    && a.attempts < 5
    && (a.exec == A.NotStarted || a.exec == A.Failed || (a.exec == A.Executing && LessThan(a.leaseUntil, now)))
  }

  function SqlBegin(a: A.Approval, token: A.Token, now: int): A.Approval {
    a.(exec := A.Executing, startedAt := Some(now), completedAt := None, error := "",
       leaseUntil := Some(now + 2 * MINUTE), attempts := a.attempts + 1, token := token)
  }

  predicate SqlHolds(a: A.Approval, token: A.Token) {
    a.exec == A.Executing && TokenIs(a.token, token)
  }

  function SqlComplete(a: A.Approval, now: int): A.Approval {
    a.(exec := A.Completed, completedAt := Some(now), error := "", leaseUntil := None, token := A.NO_TOKEN)
  }

  function SqlFail(a: A.Approval, message: string, now: int): A.Approval {
    a.(exec := A.Failed, completedAt := Some(now), error := message, leaseUntil := None, token := A.NO_TOKEN)
  }

  function SqlRenew(a: A.Approval, now: int): A.Approval {
    a.(leaseUntil := Some(now + 2 * MINUTE))
  }

  predicate SqlResolveGuard(a: A.Approval, workspaceId: Id) {
    a.workspaceId == workspaceId && a.status == A.Pending
  }

  function SqlResolve(a: A.Approval, verdict: A.Status, approver: Id, now: int): A.Approval {
    a.(status := verdict, approverId := approver, resolvedAt := Some(now))
  }

  /**
   In every reachable store, renew, complete and fail accept the same calls and write the same record in both
   stores.  So does begin, exactly if it is not accepted in memory for an approval without a conversation.
   */
  lemma {:induction false} ApprovalStoresAgree<B>(es: seq<AR.Event<B>>, id: Id, conversationId: Id, token: A.Token,
      message: string, now: int)
    requires AR.LegalRun(A.Empty<B>(), es)
    requires id in AR.Run(A.Empty<B>(), es).approvals
    ensures
      var s := AR.Run(A.Empty<B>(), es);
      var a := s.approvals[id];
      var begun := A.BeginExecution(s, id, conversationId, now);
      var renewed := A.RenewExecution(s, id, token, now);
      var completed := A.CompleteExecution(s, id, token, now);
      var failed := A.FailExecution(s, id, token, message, now);
      && (begun.1.Ok? == SqlBeginGuard(a, conversationId, now) <==> !(begun.1.Ok? && conversationId == NO_ID))
      && (begun.1.Ok? ==> begun.0.approvals == s.approvals[id := SqlBegin(a, begun.1.value, now)])
      && renewed.1.Ok? == SqlHolds(a, token)
      && (renewed.1.Ok? ==> renewed.0.approvals == s.approvals[id := SqlRenew(a, now)])
      && completed.1.Ok? == SqlHolds(a, token)
      && (completed.1.Ok? ==> completed.0.approvals == s.approvals[id := SqlComplete(a, now)])
      && failed.1.Ok? == SqlHolds(a, token)
      && (failed.1.Ok? ==> failed.0.approvals == s.approvals[id := SqlFail(a, message, now)])
  {
    AR.ReachableStoresAreOk(es);
    var s := AR.Run(A.Empty<B>(), es);
    assert AR.RecordOk(s.approvals[id], s.issued);
  }

  /** A run in which they differ: an approval without a conversation may begin in memory and never in the database. */
  lemma {:induction false} BeginMayDiffer<B>() returns (es: seq<AR.Event<B>>)
    ensures AR.LegalRun(A.Empty<B>(), es) && 1 in AR.Run(A.Empty<B>(), es).approvals
    ensures forall now: int :: A.BeginExecution(AR.Run(A.Empty<B>(), es), 1, NO_ID, now).1.Ok?
                               && !SqlBeginGuard(AR.Run(A.Empty<B>(), es).approvals[1], NO_ID, now)
  {
    var create, approve := AR.Event(AR.Create(1, NO_ID, NO_ID, "", ""), 0),
      AR.Event(AR.Resolve(1, NO_ID, A.Approved, NO_ID), 0);
    AR.TwoEvents(A.Empty<B>(), create, approve);
    es := [create, approve];
  }

  // ---- decisions ----

  predicate WaitsForApproval(t: T.Store, conv: Id) {
    conv != NO_ID && conv in t.status && t.status[conv] == T.AwaitingApproval
  }

  // The decision's one statement: the approval's row, and on a rejection the conversation waiting for it.
  function SqlDecide<B>(s: A.Store<B>, t: T.Store, id: Id, workspaceId: Id, verdict: A.Status, approver: Id, now: int)
    : (A.Store<B>, T.Store)
  {
    if id !in s.approvals || !SqlResolveGuard(s.approvals[id], workspaceId) then (s, t)
    else
      var resolved := SqlResolve(s.approvals[id], verdict, approver, now);
      var released := resolved.status == A.Rejected && WaitsForApproval(t, resolved.conversationId);
      (s.(approvals := s.approvals[id := resolved]),
       if released then t.(status := t.status[resolved.conversationId := T.Active]) else t)
  }

  // The statement rejects the approval a conversation waits for.
  predicate Releases<B>(s: A.Store<B>, t: T.Store, id: Id, workspaceId: Id, verdict: A.Status) {
    && id in s.approvals && SqlResolveGuard(s.approvals[id], workspaceId) && verdict == A.Rejected
    && WaitsForApproval(t, s.approvals[id].conversationId)
  }

  // A pending approval of a workspace is decided without naming one.
  predicate Unnamed<B>(s: A.Store<B>, id: Id, workspaceId: Id) {
    && id in s.approvals && s.approvals[id].status == A.Pending
    && workspaceId == NO_ID && s.approvals[id].workspaceId != NO_ID
  }

  /**
   A decision leaves the same approvals and turns in both stores exactly if it names the workspace of a pending
   approval that has one, and is no rejection that a conversation waits for: that one only the database releases.
   */
  lemma {:induction false} DecideStoresAgreeIff<B>(s: A.Store<B>, t: T.Store, id: Id, workspaceId: Id,
      verdict: A.Status, approver: Id, now: int)
    requires verdict != A.Pending
    ensures
      (SqlDecide(s, t, id, workspaceId, verdict, approver, now)
         == (A.ResolvePending(s, id, workspaceId, verdict, approver, now).0, t))
      <==> !Unnamed(s, id, workspaceId) && !Releases(s, t, id, workspaceId, verdict)
  {
    var sql, memory := SqlDecide(s, t, id, workspaceId, verdict, approver, now),
      A.ResolvePending(s, id, workspaceId, verdict, approver, now).0;
    if Unnamed(s, id, workspaceId) {
      assert memory.approvals[id].status != sql.0.approvals[id].status;
    } else if Releases(s, t, id, workspaceId, verdict) {
      var conv := s.approvals[id].conversationId;
      assert sql.1.status[conv] != t.status[conv];
    } else if id in s.approvals && SqlResolveGuard(s.approvals[id], workspaceId) {
      assert sql.0.approvals == memory.approvals;
    }
  }

  /** Such a rejection is reachable: a chat that ended waiting for its approval, which is then rejected. */
  lemma {:induction false} WaitingIsReachable<B>(conv: Id, workspaceId: Id)
    returns (es: seq<AR.Event<B>>, ts: seq<TR.Event>)
    requires conv != NO_ID
    ensures AR.LegalRun(A.Empty<B>(), es) && TR.LegalRun(T.Empty(), ts)
    ensures Releases(AR.Run(A.Empty<B>(), es), TR.Run(T.Empty(), ts), 1, workspaceId, A.Rejected)
  {
    es := [AR.Event(AR.Create(1, workspaceId, conv, "", ""), 0)];
    assert es[1..] == [];
    var create, claim := TR.DoCreate(conv), TR.DoClaim(conv, false, 0);
    var commit := TR.DoCommit(conv, T.TurnToken(0, 1), [], T.AwaitingApproval);
    ts := [create, claim, commit];
    var t1 := TR.Step(T.Empty(), create).0;
    var t2 := TR.Step(t1, claim).0;
    assert ts[1..] == [claim, commit] && [claim, commit][1..] == [commit] && [commit][1..] == [];
    assert TR.Run(t2, [commit]) == TR.Step(t2, commit).0;
    assert TR.Run(t1, [claim, commit]) == TR.Run(t2, [commit]);
    assert TR.LegalRun(t1, [claim, commit]);
  }

  // ---- conversation turns ----

  datatype ConversationRow = ConversationRow(status: T.ConvStatus, token: Option<T.TurnToken>, leaseUntil: Option<int>,
      revision: nat)

  function RowOf(status: T.ConvStatus, turn: T.Turn): ConversationRow {
    ConversationRow(status, if turn.token == T.NoTurn then None else Some(turn.token), turn.leaseUntil, turn.revision)
  }

  predicate SqlClaimGuard(row: ConversationRow, resume: bool, now: int) {
    || (row.token.None? && ((!resume && row.status == T.Active)
                            || (resume && (row.status == T.Active || row.status == T.AwaitingApproval))))
    || (row.status == T.Running && LessThan(row.leaseUntil, now))
  }

  function SqlClaim(row: ConversationRow, token: T.TurnToken, now: int): ConversationRow {
    ConversationRow(T.Running, Some(token), Some(now + 2 * MINUTE), row.revision + 1)
  }

  predicate SqlTurnGuard(row: ConversationRow, token: T.TurnToken) {
    row.status == T.Running && row.token.Some? && row.token.value == token
  }

  function SqlTurnRenew(row: ConversationRow, now: int): ConversationRow {
    row.(leaseUntil := Some(now + 2 * MINUTE))
  }

  function SqlCommit(row: ConversationRow, next: T.ConvStatus): ConversationRow {
    row.(status := next, token := None, leaseUntil := None)
  }

  // The two claim guards accept the same calls at every instant.
  ghost predicate ClaimGuardsAgree(status: T.ConvStatus, turn: T.Turn) {
    forall resume: bool, now: int ::
      T.Claimable(status, turn, resume, now) == SqlClaimGuard(RowOf(status, turn), resume, now)
  }

  /**
   The claim guards agree exactly on the states where a token is only out while running, and a running turn has a lease.
   */
  lemma {:induction false} ClaimGuardsAgreeIff(status: T.ConvStatus, turn: T.Turn)
    ensures ClaimGuardsAgree(status, turn)
       <==> (turn.token != T.NoTurn ==> status == T.Running) && (status == T.Running ==> turn.leaseUntil.Some?)
  {
    var late := if turn.leaseUntil.Some? then turn.leaseUntil.value else 0;
    if turn.token != T.NoTurn && status != T.Running {
      assert T.Claimable(status, turn, true, late) != SqlClaimGuard(RowOf(status, turn), true, late);
    } else if status == T.Running && turn.leaseUntil.None? {
      assert T.Claimable(status, turn, true, late) != SqlClaimGuard(RowOf(status, turn), true, late);
    }
  }

  /** Committing a turn straight back to running is the one way out of agreement, so no caller may ask for it. */
  lemma {:induction false} CommitBreaksAgreementIff(s: T.Store, conv: Id, batch: seq<Option<T.Message>>,
      next: T.ConvStatus)
    requires TR.Inv(s) && conv in s.status && s.status[conv] == T.Running
    ensures
      var s' := T.Commit(s, conv, T.TurnOf(s, conv).token, batch, next).0;
      ClaimGuardsAgree(s'.status[conv], T.TurnOf(s', conv)) <==> next != T.Running
  {
    var s' := T.Commit(s, conv, T.TurnOf(s, conv).token, batch, next).0;
    ClaimGuardsAgreeIff(s'.status[conv], T.TurnOf(s', conv));
  }

  /** In every reachable store, claim, renew and commit accept the same calls and write the same row in both stores. */
  lemma {:induction false} TurnStoresAgree(es: seq<TR.Event>, conv: Id, resume: bool, token: T.TurnToken,
                                           batch: seq<Option<T.Message>>, next: T.ConvStatus, now: int)
    requires TR.LegalRun(T.Empty(), es) && conv in TR.Run(T.Empty(), es).status
    ensures
      var s := TR.Run(T.Empty(), es);
      var row := RowOf(s.status[conv], T.TurnOf(s, conv));
      var claimed := T.Claim(s, conv, resume, now);
      var renewed := T.Renew(s, conv, token, now);
      var committed := T.Commit(s, conv, token, batch, next);
      && claimed.1.Some? == SqlClaimGuard(row, resume, now)
      && (claimed.1.Some? ==>
            RowOf(claimed.0.status[conv], T.TurnOf(claimed.0, conv)) == SqlClaim(row, claimed.1.value, now))
      && renewed.1 == SqlTurnGuard(row, token)
      && (renewed.1 ==> RowOf(renewed.0.status[conv], T.TurnOf(renewed.0, conv)) == SqlTurnRenew(row, now))
      && committed.1 == SqlTurnGuard(row, token)
      && (committed.1 ==> RowOf(committed.0.status[conv], T.TurnOf(committed.0, conv)) == SqlCommit(row, next))
  {
    TR.RunKeepsInv(T.Empty(), es);
    var s := TR.Run(T.Empty(), es);
    ClaimGuardsAgreeIff(s.status[conv], T.TurnOf(s, conv));
  }

  // ---- what a rejection does to the chats ----

  /**
   After a rejection that releases its conversation the claim statement lets the next chat in at every instant; the
   in-memory stores, whatever is called there except a resume of that conversation, refuse every chat.
   */
  lemma {:induction false} RejectionDivides<B>(s: A.Store<B>, t: T.Store, id: Id, workspaceId: Id, approver: Id,
      now: int, es: seq<TR.Event>)
    requires TR.Inv(t) && Releases(s, t, id, workspaceId, A.Rejected) && TR.LegalRun(t, es)
    requires TR.NoResume(es, s.approvals[id].conversationId)
    ensures
      var conv := s.approvals[id].conversationId;
      var freed := SqlDecide(s, t, id, workspaceId, A.Rejected, approver, now).1;
      && conv in freed.status
      && forall at: int :: SqlClaimGuard(RowOf(freed.status[conv], T.TurnOf(freed, conv)), false, at)
                           && T.Claim(TR.Run(t, es), conv, false, at).1.None?
  {
    var conv := s.approvals[id].conversationId;
    TR.WaitingStays(t, es, conv);
    assert TR.TurnOk(t.status[conv], T.TurnOf(t, conv));
  }
}
