/**
 The approval store: approval records with their execution lease, and the checkpoint bound to each
 approval.  The functions specify one store call each; MemoryApprovals holds the store itself, whose
 methods update the two maps.  What holds over whole runs is proved in ApprovalRuns.
 */
module Approvals {
  import opened Prelude

  // uuid.NewString draws a token never handed out before: tokens are numbered as they are drawn.
  // The number 0 stands for the empty string of a record that nobody is executing.
  type Token = nat
  const NO_TOKEN: Token := 0
  const MAX_ATTEMPTS: nat := 5

  datatype Status = Pending | Approved | Rejected
  datatype ExecStatus = NotStarted | Executing | Completed | Failed

  datatype Approval = Approval(
    workspaceId: Id,
    conversationId: Id,
    action: string,
    payload: string,
    status: Status,
    approverId: Id,
    createdAt: int,
    resolvedAt: Option<int>,
    exec: ExecStatus,
    startedAt: Option<int>,
    completedAt: Option<int>,
    error: string,
    leaseUntil: Option<int>,
    attempts: nat,
    token: Token)

  datatype Checkpoint<+B> = Checkpoint(conversationId: Id, state: B)

  datatype Store<+B> = Store(approvals: map<Id, Approval>, checkpoints: map<Id, Checkpoint<B>>, issued: nat)

  datatype Error = NotFound | AlreadyResolved | ExecutionUnavailable | IdsRequired | CheckpointExists | NoCheckpoint
  datatype Result<+T> = Ok(value: T) | Err(error: Error)

  function Empty<B>(): Store<B> {
    Store(map[], map[], 0)
  }

  function NewApproval(workspaceId: Id, conversationId: Id, action: string, payload: string, now: int): Approval {
    Approval(workspaceId, conversationId, action, payload, Pending, NO_ID, now, None,
             NotStarted, None, None, "", None, 0, NO_TOKEN)
  }

  predicate Reclaimable(a: Approval, now: int) {
    || a.exec == NotStarted
    || a.exec == Failed
    || (a.exec == Executing && a.leaseUntil.Some? && a.leaseUntil.value < now)
  }

  // What BeginExecution asks of the record, apart from the conversation it is called for.
  predicate Ready(a: Approval, now: int) {
    Reclaimable(a, now) && a.status == Approved && a.attempts < MAX_ATTEMPTS
  }

  predicate Holds(a: Approval, token: Token) {
    a.exec == Executing && a.token == token
  }

  function CreatePending<B>(s: Store<B>, id: Id, workspaceId: Id, conversationId: Id,
                            action: string, payload: string, now: int): Store<B> {
    s.(approvals := s.approvals[id := NewApproval(workspaceId, conversationId, action, payload, now)])
  }

  function ResolvePending<B>(s: Store<B>, id: Id, workspaceId: Id, verdict: Status, approverId: Id, now: int)
    : (Store<B>, Result<Approval>)
  {
    if id !in s.approvals then (s, Err(NotFound))
    else
      var a := s.approvals[id];
      if a.status != Pending || (workspaceId != NO_ID && a.workspaceId != workspaceId) then (s, Err(AlreadyResolved))
      else
        var a' := a.(status := verdict, approverId := approverId, resolvedAt := Some(now));
        (s.(approvals := s.approvals[id := a']), Ok(a'))
  }

  function Begun(a: Approval, token: Token, now: int): Approval {
    a.(exec := Executing, startedAt := Some(now), completedAt := None, error := "",
       attempts := a.attempts + 1, token := token, leaseUntil := Some(now + LEASE))
  }

  function BeginExecution<B>(s: Store<B>, id: Id, conversationId: Id, now: int): (Store<B>, Result<Token>) {
    if id !in s.approvals || !Ready(s.approvals[id], now) || s.approvals[id].conversationId != conversationId then
      (s, Err(ExecutionUnavailable))
    else
      var token := s.issued + 1;
      (s.(approvals := s.approvals[id := Begun(s.approvals[id], token, now)], issued := token), Ok(token))
  }

  // BeginExecution would accept this approval at this instant.
  predicate Startable<B>(s: Store<B>, id: Id, now: int) {
    id in s.approvals && BeginExecution(s, id, s.approvals[id].conversationId, now).1.Ok?
  }

  ghost function Startables<B>(s: Store<B>, now: int): iset<Id> {
    iset id | id in s.approvals && Startable(s, id, now)
  }

  // The order a store lists its ready approvals in.
  datatype Order = ByCreation | ByDecision

  function Rank(a: Approval, order: Order): int {
    if order == ByCreation then a.createdAt else if a.resolvedAt.Some? then a.resolvedAt.value else 0
  }

  // The first `limit` of the ready approvals in this order, or all of them if they are fewer.
  ghost predicate ReadyList<B>(s: Store<B>, ready: iset<Id>, order: Order, limit: nat, out: seq<Id>) {
    && |out| <= limit
    && (forall i :: 0 <= i < |out| ==> out[i] in s.approvals && out[i] in ready)
    && (forall i, j :: 0 <= i < j < |out| ==>
      out[i] != out[j] && Rank(s.approvals[out[i]], order) <= Rank(s.approvals[out[j]], order))
    && (|out| < limit ==> forall id :: id in ready ==> id in out)
    && forall i, id :: 0 <= i < |out| && id in ready && id in s.approvals && id !in out ==>
         Rank(s.approvals[out[i]], order) <= Rank(s.approvals[id], order)
  }

  // Cutting a complete list leaves the first ones.
  lemma {:induction false} CutReadyList<B>(s: Store<B>, ready: iset<Id>, order: Order, limit: nat, all: seq<Id>)
    requires ReadyList(s, ready, order, |all| + 1, all) && limit <= |all|
    ensures ReadyList(s, ready, order, limit, all[..limit])
  {
    assert forall k :: 0 <= k < limit ==> all[..limit][k] == all[k];
    forall i, id | 0 <= i < limit && id in ready && id in s.approvals && id !in all[..limit]
      ensures Rank(s.approvals[all[i]], order) <= Rank(s.approvals[id], order)
    {
      var k :| 0 <= k < |all| && all[k] == id;
    }
  }

  function RenewExecution<B>(s: Store<B>, id: Id, token: Token, now: int): (Store<B>, Result<()>) {
    if id !in s.approvals || !Holds(s.approvals[id], token) then (s, Err(ExecutionUnavailable))
    else (s.(approvals := s.approvals[id := s.approvals[id].(leaseUntil := Some(now + LEASE))]), Ok(()))
  }

  function CompleteExecution<B>(s: Store<B>, id: Id, token: Token, now: int): (Store<B>, Result<()>) {
    if id !in s.approvals || !Holds(s.approvals[id], token) then (s, Err(ExecutionUnavailable))
    else
      var a' := s.approvals[id].(exec := Completed, completedAt := Some(now), leaseUntil := None, token := NO_TOKEN);
      (s.(approvals := s.approvals[id := a']), Ok(()))
  }

  function FailExecution<B>(s: Store<B>, id: Id, token: Token, message: string, now: int): (Store<B>, Result<()>) {
    if id !in s.approvals || !Holds(s.approvals[id], token) then (s, Err(ExecutionUnavailable))
    else
      var a' := s.approvals[id].(exec := Failed, completedAt := Some(now), error := message,
                                 leaseUntil := None, token := NO_TOKEN);
      (s.(approvals := s.approvals[id := a']), Ok(()))
  }

  function SaveCheckpoint<B>(s: Store<B>, id: Id, conversationId: Id, state: B): (Store<B>, Result<()>) {
    if id == NO_ID || conversationId == NO_ID then (s, Err(IdsRequired))
    else if id in s.checkpoints then (s, Err(CheckpointExists))
    else (s.(checkpoints := s.checkpoints[id := Checkpoint(conversationId, state)]), Ok(()))
  }

  // The gate's reading of a checkpoint: the approval must be approved, then the store must hold a
  // checkpoint of that approval saved for that conversation.
  function CheckpointForApproval<B>(s: Store<B>, id: Id, conversationId: Id): Result<B> {
    if id !in s.approvals then Err(NotFound)
    else if s.approvals[id].status != Approved then Err(NoCheckpoint)
    else if id !in s.checkpoints || s.checkpoints[id].conversationId != conversationId then Err(NoCheckpoint)
    else Ok(s.checkpoints[id].state)
  }
}
