/**
 The ledger of tool invocations: a running row is written before a tool's side effect and closed after
 it, and a conversation accepts a non-empty tool call id only once.
 */
module ToolLedger {
  import opened Prelude

  datatype RunStatus = InvocationRunning | Success | Error

  datatype Invocation = Invocation(
    conversationId: Id,
    toolCallId: Id,
    toolVersionId: Id,
    args: string,
    result: string,
    status: RunStatus,
    latencyMS: int,
    error: string)

  type Store = map<Id, Invocation>

  predicate SameCall(a: Invocation, b: Invocation) {
    a.toolCallId != NO_ID && b.conversationId == a.conversationId && b.toolCallId == a.toolCallId
  }

  ghost predicate Duplicate(s: Store, invocation: Invocation) {
    exists id :: id in s && SameCall(invocation, s[id])
  }

  ghost function CreateInvocation(s: Store, id: Id, invocation: Invocation): (Store, bool) {
    if Duplicate(s, invocation) then (s, false) else (s[id := invocation], true)
  }

  function CompleteInvocation(s: Store, id: Id, result: string, status: RunStatus, latencyMS: int,
      error: string): (Store, bool) {
    if id !in s || s[id].status != InvocationRunning then (s, false)
    else (s[id := s[id].(result := result, status := status, latencyMS := latencyMS, error := error)], true)
  }

  // No two rows record the same call.
  ghost predicate CallsOnce(s: Store) {
    forall i, j :: i in s && j in s && SameCall(s[i], s[j]) ==> i == j
  }

  /** Writing a row keeps one row per call, and every row written before. */
  lemma {:induction false} CreateKeepsCalls(s: Store, id: Id, invocation: Invocation)
    requires CallsOnce(s) && id !in s
    ensures CallsOnce(CreateInvocation(s, id, invocation).0)
    ensures forall i :: i in s ==>
        i in CreateInvocation(s, id, invocation).0 && CreateInvocation(s, id, invocation).0[i] == s[i]
  {
    var c := CreateInvocation(s, id, invocation).0;
    forall i, j | i in c && j in c && SameCall(c[i], c[j])
      ensures i == j
    {
      assert i != id ==> i in s && c[i] == s[i];
      assert j != id ==> j in s && c[j] == s[j];
      assert SameCall(c[j], c[i]);
    }
  }

  /** Closing a row keeps one row per call, every row, and the call each of them records. */
  lemma {:induction false} CompleteKeepsCalls(s: Store, id: Id, result: string, status: RunStatus, latencyMS: int,
      error: string)
    requires CallsOnce(s)
    ensures
      var c := CompleteInvocation(s, id, result, status, latencyMS, error).0;
      && CallsOnce(c) && c.Keys == s.Keys
      && forall i :: i in s ==> c[i].conversationId == s[i].conversationId && c[i].toolCallId == s[i].toolCallId
  {
    var c := CompleteInvocation(s, id, result, status, latencyMS, error).0;
    forall i, j | i in c && j in c && SameCall(c[i], c[j])
      ensures i == j
    {
      assert SameCall(s[i], s[j]);
    }
  }

  /** A row is closed once: it holds what it was closed with, and a second closing is refused. */
  lemma {:induction false} ClosedOnce(s: Store, id: Id, result: string, status: RunStatus, latencyMS: int,
      error: string, result': string, status': RunStatus, latencyMS': int, error': string)
    requires CompleteInvocation(s, id, result, status, latencyMS, error).1 && status != InvocationRunning
    ensures
      var c := CompleteInvocation(s, id, result, status, latencyMS, error).0;
      && id in c && c[id].result == result && c[id].status == status && c[id].latencyMS == latencyMS
        && c[id].error == error
      && c[id].args == s[id].args && c[id].toolVersionId == s[id].toolVersionId
      && CompleteInvocation(c, id, result', status', latencyMS', error') == (c, false)
  {
  }
}

/** The tool store's ledger. */
module MemoryTools {
  import opened Prelude
  import opened ToolLedger

  class MemoryToolStore {
    var invocations: Store

    constructor ()
      ensures invocations == map[]
    {
      invocations := map[];
    }

    method CreateInvocation(id: Id, invocation: Invocation) returns (ok: bool)
      modifies this
      ensures (invocations, ok) == ToolLedger.CreateInvocation(old(invocations), id, invocation)
    {
      var todo := invocations.Keys;
      while todo != {}
        invariant todo <= invocations.Keys && invocations == old(invocations)
        invariant forall i :: i in invocations && i !in todo ==> !SameCall(invocation, invocations[i])
        decreases |todo|
      {
        var i :| i in todo;
        var existing := invocations[i];
        if invocation.toolCallId != NO_ID && existing.conversationId == invocation.conversationId
           && existing.toolCallId == invocation.toolCallId {
          assert SameCall(invocation, invocations[i]);
          return false;
        }
        todo := todo - {i};
      }
      invocations := invocations[id := invocation];
      return true;
    }

    method CompleteInvocation(id: Id, result: string, status: RunStatus, latencyMS: int, error: string)
        returns (ok: bool)
      modifies this
      ensures (invocations, ok) == ToolLedger.CompleteInvocation(old(invocations), id, result, status, latencyMS, error)
    {
      if id !in invocations || invocations[id].status != InvocationRunning {
        return false;
      }
      var invocation := invocations[id];
      invocation := invocation.(result := result);
      invocation := invocation.(status := status);
      invocation := invocation.(latencyMS := latencyMS, error := error);
      invocations := invocations[id := invocation];
      return true;
    }
  }
}
