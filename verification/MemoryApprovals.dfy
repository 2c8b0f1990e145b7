/** The in-memory approval store, each method proved against its specification in Approvals. */
module MemoryApprovals {
  import opened Prelude
  import opened Approvals

  /** The store.  Its mutex makes every method one atomic step; `now` is the clock reading of the call. */
  class MemoryStore<B> {
    var approvals: map<Id, Approval>
    var checkpoints: map<Id, Checkpoint<B>>
    var issued: nat

    ghost function State(): Store<B>
      reads this
    {
      Store(approvals, checkpoints, issued)
    }

    constructor ()
      ensures State() == Empty()
    {
      approvals, checkpoints, issued := map[], map[], 0;
    }

    method CreatePending(id: Id, workspaceId: Id, conversationId: Id, action: string, payload: string, now: int)
      modifies this
      ensures State() == Approvals.CreatePending(old(State()), id, workspaceId, conversationId, action, payload, now)
    {
      var a := Approval(workspaceId, conversationId, action, payload, Pending, NO_ID, now, None,
                        NotStarted, None, None, "", None, 0, NO_TOKEN);
      approvals := approvals[id := a];
    }

    method ResolvePending(id: Id, workspaceId: Id, verdict: Status, approverId: Id, now: int)
        returns (r: Result<Approval>)
      modifies this
      ensures (State(), r) == Approvals.ResolvePending(old(State()), id, workspaceId, verdict, approverId, now)
    {
      if id !in approvals {
        return Err(NotFound);
      }
      var a := approvals[id];
      if a.status != Pending || (workspaceId != NO_ID && a.workspaceId != workspaceId) {
        return Err(AlreadyResolved);
      }
      a := a.(status := verdict);
      a := a.(approverId := approverId);
      a := a.(resolvedAt := Some(now));
      approvals := approvals[id := a];
      return Ok(a);
    }

    method BeginExecution(id: Id, conversationId: Id, now: int) returns (r: Result<Token>)
      modifies this
      ensures (State(), r) == Approvals.BeginExecution(old(State()), id, conversationId, now)
    {
      if id !in approvals {
        return Err(ExecutionUnavailable);
      }
      var a := approvals[id];
      var reclaimable := a.exec == NotStarted || a.exec == Failed ||
        (a.exec == Executing && a.leaseUntil.Some? && a.leaseUntil.value < now);
      if !reclaimable || a.conversationId != conversationId || a.status != Approved || a.attempts >= MAX_ATTEMPTS {
        return Err(ExecutionUnavailable);
      }
      issued := issued + 1;
      var token := issued;
      a := a.(exec := Executing, startedAt := Some(now), completedAt := None, error := "");
      a := a.(attempts := a.attempts + 1);
      a := a.(token := token);
      a := a.(leaseUntil := Some(now + LEASE));
      approvals := approvals[id := a];
      return Ok(token);
    }

    method RenewExecution(id: Id, token: Token, now: int) returns (r: Result<()>)
      modifies this
      ensures (State(), r) == Approvals.RenewExecution(old(State()), id, token, now)
    {
      if id !in approvals || approvals[id].exec != Executing || approvals[id].token != token {
        return Err(ExecutionUnavailable);
      }
      approvals := approvals[id := approvals[id].(leaseUntil := Some(now + LEASE))];
      return Ok(());
    }

    method CompleteExecution(id: Id, token: Token, now: int) returns (r: Result<()>)
      modifies this
      ensures (State(), r) == Approvals.CompleteExecution(old(State()), id, token, now)
    {
      if id !in approvals || approvals[id].exec != Executing || approvals[id].token != token {
        return Err(ExecutionUnavailable);
      }
      var a := approvals[id].(exec := Completed, completedAt := Some(now));
      approvals := approvals[id := a.(leaseUntil := None, token := NO_TOKEN)];
      return Ok(());
    }

    method FailExecution(id: Id, token: Token, message: string, now: int) returns (r: Result<()>)
      modifies this
      ensures (State(), r) == Approvals.FailExecution(old(State()), id, token, message, now)
    {
      if id !in approvals || approvals[id].exec != Executing || approvals[id].token != token {
        return Err(ExecutionUnavailable);
      }
      var a := approvals[id].(exec := Failed, completedAt := Some(now), error := message);
      approvals := approvals[id := a.(leaseUntil := None, token := NO_TOKEN)];
      return Ok(());
    }

    method SaveCheckpoint(id: Id, conversationId: Id, state: B) returns (r: Result<()>)
      modifies this
      ensures (State(), r) == Approvals.SaveCheckpoint(old(State()), id, conversationId, state)
    {
      if id == NO_ID || conversationId == NO_ID {
        return Err(IdsRequired);
      }
      if id in checkpoints {
        return Err(CheckpointExists);
      }
      checkpoints := checkpoints[id := Checkpoint(conversationId, state)];
      return Ok(());
    }

    // The gate's reading: the approval must be approved before its checkpoint is looked for.
    method CheckpointForApproval(id: Id, conversationId: Id) returns (r: Result<B>)
      ensures r == Approvals.CheckpointForApproval(State(), id, conversationId)
      ensures r.Ok? <==>
        id in approvals && approvals[id].status == Approved
        && id in checkpoints && checkpoints[id].conversationId == conversationId
      ensures r.Ok? ==> r.value == checkpoints[id].state
    {
      if id !in approvals {
        return Err(NotFound);
      }
      if approvals[id].status != Approved {
        return Err(NoCheckpoint);
      }
      if id !in checkpoints || checkpoints[id].conversationId != conversationId {
        return Err(NoCheckpoint);
      }
      return Ok(checkpoints[id].state);
    }

    // Lists the approvals that BeginExecution would accept at `now`, oldest first: all of them without a
    // limit, the oldest ones when a positive limit cuts the list.
    method ListReadyResumes(limit: int, now: int) returns (out: seq<Id>)
      ensures limit > 0 ==> ReadyList(State(), Startables(State(), now), ByCreation, limit, out)
      ensures limit <= 0 ==> ReadyList(State(), Startables(State(), now), ByCreation, |out| + 1, out)
    {
      out := ReadyByCreation(now);
      if limit > 0 && |out| > limit {
        CutReadyList(State(), Startables(State(), now), ByCreation, limit, out);
        out := out[..limit];
      }
    }

    method ReadyByCreation(now: int) returns (out: seq<Id>)
      ensures ReadyList(State(), Startables(State(), now), ByCreation, |out| + 1, out)
    {
      out := [];
      var todo := approvals.Keys;
      while todo != {}
        invariant todo <= approvals.Keys
        invariant forall id :: id in out <==> id in approvals && id !in todo && Startable(State(), id, now)
        invariant forall i, j :: 0 <= i < j < |out| ==>
            out[i] != out[j] && approvals[out[i]].createdAt <= approvals[out[j]].createdAt
        decreases |todo|
      {
        var id :| id in todo;
        todo := todo - {id};
        var a := approvals[id];
        var reclaimable := a.exec == NotStarted || a.exec == Failed ||
          (a.exec == Executing && a.leaseUntil.Some? && a.leaseUntil.value < now);
        if a.status == Approved && a.attempts < MAX_ATTEMPTS && reclaimable {
          out := InsertByCreation(out, id);
        }
      }
    }

    // Keeps the list in creation order, as sorting it at the end does.
    method InsertByCreation(ids: seq<Id>, id: Id) returns (r: seq<Id>)
      requires id in approvals && id !in ids && forall x <- ids :: x in approvals
      requires forall i, j :: 0 <= i < j < |ids| ==>
          ids[i] != ids[j] && approvals[ids[i]].createdAt <= approvals[ids[j]].createdAt
      ensures forall x :: x in r <==> x in ids || x == id
      ensures forall i, j :: 0 <= i < j < |r| ==> r[i] != r[j] && approvals[r[i]].createdAt <= approvals[r[j]].createdAt
    {
      var k := 0;
      while k < |ids| && approvals[ids[k]].createdAt <= approvals[id].createdAt
        invariant 0 <= k <= |ids|
        invariant forall i :: 0 <= i < k ==> approvals[ids[i]].createdAt <= approvals[id].createdAt
      {
        k := k + 1;
      }
      assert forall i :: k <= i < |ids| ==> approvals[id].createdAt <= approvals[ids[i]].createdAt;
      r := InsertAt(ids, k, id);
      InsertedMembers(ids, k, id);
    }
  }
}
