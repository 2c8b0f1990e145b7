/**
 Whole runs of the approval store: any sequence of store calls, from any number of callers, at any
 clock readings.  The clock need not even be monotonic for what is proved here.
 */
module ApprovalRuns {
  import opened Prelude
  import opened Approvals

  datatype Op<+B> =
    | Create(id: Id, workspaceId: Id, conversationId: Id, action: string, payload: string)
    | Resolve(id: Id, workspaceId: Id, verdict: Status, approverId: Id)
    | Begin(id: Id, conversationId: Id)
    | Renew(id: Id, token: Token)
    | Complete(id: Id, token: Token)
    | Fail(id: Id, token: Token, message: string)
    | Save(id: Id, conversationId: Id, state: B)

  datatype Event<+B> = Event(op: Op<B>, now: int)

  function Step<B>(s: Store<B>, e: Event<B>): (Store<B>, bool) {
    match e.op
    case Create(id, w, c, action, payload) => (CreatePending(s, id, w, c, action, payload, e.now), true)
    case Resolve(id, w, verdict, approver) =>
      var (s', r) := ResolvePending(s, id, w, verdict, approver, e.now); (s', r.Ok?)
    case Begin(id, c) => var (s', r) := BeginExecution(s, id, c, e.now); (s', r.Ok?)
    case Renew(id, t) => var (s', r) := RenewExecution(s, id, t, e.now); (s', r.Ok?)
    case Complete(id, t) => var (s', r) := CompleteExecution(s, id, t, e.now); (s', r.Ok?)
    case Fail(id, t, m) => var (s', r) := FailExecution(s, id, t, m, e.now); (s', r.Ok?)
    case Save(id, c, state) => var (s', r) := SaveCheckpoint(s, id, c, state); (s', r.Ok?)
  }

  function Run<B>(s: Store<B>, es: seq<Event<B>>): Store<B>
    decreases |es|
  {
    if es == [] then s else Run(Step(s, es[0]).0, es[1..])
  }

  // What the callers guarantee: approval ids are generated, afresh and never empty, and a decision is approve
  // or reject.
  predicate Legal<B>(s: Store<B>, op: Op<B>) {
    match op
    case Create(id, _, _, _, _) => id != NO_ID && id !in s.approvals
    case Resolve(_, _, verdict, _) => verdict != Pending
    case _ => true
  }

  predicate LegalRun<B>(s: Store<B>, es: seq<Event<B>>)
    decreases |es|
  {
    es == [] || (Legal(s, es[0].op) && LegalRun(Step(s, es[0]).0, es[1..]))
  }

  lemma {:induction false} RunConcat<B>(s: Store<B>, front: seq<Event<B>>, back: seq<Event<B>>)
    ensures Run(s, front + back) == Run(Run(s, front), back)
    ensures LegalRun(s, front + back) <==> LegalRun(s, front) && LegalRun(Run(s, front), back)
    decreases |front|
  {
    if front == [] {
      assert front + back == back;
    } else {
      assert (front + back)[1..] == front[1..] + back;
      RunConcat(Step(s, front[0]).0, front[1..], back);
    }
  }

  lemma {:induction false} TwoEvents<B>(s: Store<B>, first: Event<B>, second: Event<B>)
    ensures Run(s, [first, second]) == Step(Step(s, first).0, second).0
    ensures LegalRun(s, [first, second]) <==> Legal(s, first.op) && Legal(Step(s, first).0, second.op)
  {
    var s' := Step(s, first).0;
    assert [first, second][1..] == [second];
    assert Run(s', [second]) == Step(s', second).0 by {
      assert [second][1..] == [];
      assert Run(Step(s', second).0, []) == Step(s', second).0;
    }
    assert LegalRun(s', [second]) == Legal(s', second.op) by {
      assert [second][1..] == [];
    }
  }

  // ---- the invariant ----

  predicate RecordOk(a: Approval, issued: nat) {
    && (a.token != NO_TOKEN <==> a.exec == Executing)
    && (a.leaseUntil.Some? <==> a.exec == Executing)
    && (a.exec == NotStarted <==> a.attempts == 0)
    && (a.exec != NotStarted ==> a.status == Approved)
    && (a.exec == Executing ==> a.error == "")
    && (a.resolvedAt.None? <==> a.status == Pending)
    && a.attempts <= MAX_ATTEMPTS
    && a.token <= issued
  }

  ghost predicate Inv<B>(s: Store<B>) {
    NO_ID !in s.approvals && forall id :: id in s.approvals ==> RecordOk(s.approvals[id], s.issued)
  }

  // A step touches one record, and leaves it in order.
  lemma {:induction false} StepKeepsRecord<B>(s: Store<B>, e: Event<B>, id: Id)
    requires Inv(s) && Legal(s, e.op) && e.op.id == id
    ensures id in Step(s, e).0.approvals ==> id != NO_ID && RecordOk(Step(s, e).0.approvals[id], Step(s, e).0.issued)
  {
    assert id in s.approvals ==> RecordOk(s.approvals[id], s.issued);
  }

  lemma {:induction false} StepTouchesOne<B>(s: Store<B>, e: Event<B>, id: Id)
    requires e.op.id != id
    ensures s.issued <= Step(s, e).0.issued
    ensures id in Step(s, e).0.approvals <==> id in s.approvals
    ensures id in s.approvals ==> Step(s, e).0.approvals[id] == s.approvals[id]
  {
  }

  lemma {:induction false} StepKeepsInv<B>(s: Store<B>, e: Event<B>)
    requires Inv(s) && Legal(s, e.op)
    ensures Inv(Step(s, e).0)
  {
    var s' := Step(s, e).0;
    forall id | id in s'.approvals
      ensures id != NO_ID && RecordOk(s'.approvals[id], s'.issued)
    {
      if e.op.id == id {
        StepKeepsRecord(s, e, id);
      } else {
        StepTouchesOne(s, e, id);
      }
    }
  }

  lemma {:induction false} RunKeepsInv<B>(s: Store<B>, es: seq<Event<B>>)
    requires Inv(s) && LegalRun(s, es)
    ensures Inv(Run(s, es))
    decreases |es|
  {
    if es != [] {
      StepKeepsInv(s, es[0]);
      RunKeepsInv(Step(s, es[0]).0, es[1..]);
    }
  }

  /** Token set iff lease set iff executing, and at most five attempts: in every reachable store. */
  lemma {:induction false} ReachableStoresAreOk<B>(es: seq<Event<B>>)
    requires LegalRun(Empty<B>(), es)
    ensures Inv(Run(Empty<B>(), es))
  {
    RunKeepsInv(Empty<B>(), es);
  }

  ghost predicate TokensApart<B>(s: Store<B>) {
    forall i, j :: i in s.approvals && j in s.approvals && i != j && s.approvals[i].token != NO_TOKEN ==>
      s.approvals[i].token != s.approvals[j].token
  }

  /** No two approvals are ever executed under the same token. */
  lemma {:induction false} TokensStayApart<B>(s: Store<B>, es: seq<Event<B>>)
    requires Inv(s) && TokensApart(s) && LegalRun(s, es)
    ensures TokensApart(Run(s, es))
    decreases |es|
  {
    if es != [] {
      var s' := Step(s, es[0]).0;
      StepKeepsInv(s, es[0]);
      forall i, j | i in s'.approvals && j in s'.approvals && i != j && s'.approvals[i].token != NO_TOKEN
        ensures s'.approvals[i].token != s'.approvals[j].token
      {
        assert i in s.approvals ==> RecordOk(s.approvals[i], s.issued);
        assert j in s.approvals ==> RecordOk(s.approvals[j], s.issued);
      }
      TokensStayApart(s', es[1..]);
    }
  }

  // ---- completed is terminal ----

  /** Once completed, no run changes the record at all. */
  lemma {:induction false} CompletedIsTerminal<B>(s: Store<B>, es: seq<Event<B>>, id: Id)
    requires Inv(s) && LegalRun(s, es) && id in s.approvals && s.approvals[id].exec == Completed
    ensures id in Run(s, es).approvals && Run(s, es).approvals[id] == s.approvals[id]
    decreases |es|
  {
    if es != [] {
      StepKeepsInv(s, es[0]);
      CompletedIsTerminal(Step(s, es[0]).0, es[1..], id);
    }
  }

  // ---- checkpoints ----

  /**
   A saved checkpoint is never overwritten: whenever its approval has been approved, it is read back as it was saved.
   */
  lemma {:induction false} CheckpointIsReadBack<B>(s: Store<B>, es: seq<Event<B>>, id: Id, conv: Id, state: B)
    requires SaveCheckpoint(s, id, conv, state).1.Ok?
    ensures
      var s' := Run(SaveCheckpoint(s, id, conv, state).0, es);
      CheckpointForApproval(s', id, conv) ==
        if id !in s'.approvals then Err(NotFound)
        else if s'.approvals[id].status != Approved then Err(NoCheckpoint)
        else Ok(state)
  {
    CheckpointsStay(SaveCheckpoint(s, id, conv, state).0, es, id);
  }

  lemma {:induction false} CheckpointsStay<B>(s: Store<B>, es: seq<Event<B>>, id: Id)
    requires id in s.checkpoints
    ensures id in Run(s, es).checkpoints && Run(s, es).checkpoints[id] == s.checkpoints[id]
    decreases |es|
  {
    if es != [] {
      CheckpointsStay(Step(s, es[0]).0, es[1..], id);
    }
  }

  // ---- fencing ----

  predicate Uses<B>(op: Op<B>, id: Id, token: Token) {
    (op.Renew? || op.Complete? || op.Fail?) && op.id == id && op.token == token
  }

  // Every call made with this token in this run is refused.
  predicate AllRefused<B>(s: Store<B>, es: seq<Event<B>>, id: Id, token: Token)
    decreases |es|
  {
    es == [] || ((Uses(es[0].op, id, token) ==> !Step(s, es[0]).1) && AllRefused(Step(s, es[0]).0, es[1..], id, token))
  }

  /** A token that was replaced, or given back, stays dead: no later renew, complete or fail accepts it. */
  lemma {:induction false} ReplacedTokenStaysDead<B>(s: Store<B>, es: seq<Event<B>>, id: Id, token: Token)
    requires Inv(s) && LegalRun(s, es) && id in s.approvals
    requires token <= s.issued && (token != NO_TOKEN ==> s.approvals[id].token != token)
    ensures AllRefused(s, es, id, token)
    ensures id in Run(s, es).approvals && (token != NO_TOKEN ==> Run(s, es).approvals[id].token != token)
    decreases |es|
  {
    if es != [] {
      StepKeepsInv(s, es[0]);
      ReplacedTokenStaysDead(Step(s, es[0]).0, es[1..], id, token);
    }
  }

  // ---- counting ----

  predicate Moves<B>(op: Op<B>, id: Id) {
    (op.Resolve? || op.Begin? || op.Complete? || op.Fail?) && op.id == id
  }

  function Accepted<B>(s: Store<B>, es: seq<Event<B>>, counted: Op<B> -> bool): nat
    decreases |es|
  {
    if es == [] then 0
    else (if counted(es[0].op) && Step(s, es[0]).1 then 1 else 0) + Accepted(Step(s, es[0]).0, es[1..], counted)
  }

  // What a record can still go through: its decision, and for each attempt left a begin and an end.
  function Measure(a: Approval): nat
    requires a.attempts <= MAX_ATTEMPTS
  {
    (if a.status == Pending then 1 else 0) + 2 * (MAX_ATTEMPTS - a.attempts) + (if a.exec == Executing then 1 else 0)
  }

  lemma {:induction false} MoveLowersMeasure<B>(s: Store<B>, e: Event<B>, id: Id)
    requires Inv(s) && Legal(s, e.op) && id in s.approvals && Inv(Step(s, e).0)
    ensures id in Step(s, e).0.approvals
    ensures Measure(Step(s, e).0.approvals[id]) + (if Moves(e.op, id) && Step(s, e).1 then 1 else 0)
      <= Measure(s.approvals[id])
  {
    if e.op.id != id {
      StepTouchesOne(s, e, id);
    }
  }

  /** Every accepted decision, begin, complete or fail lowers the measure; nothing raises it. */
  lemma {:induction false} TransitionsAreBounded<B>(s: Store<B>, es: seq<Event<B>>, id: Id)
    requires Inv(s) && LegalRun(s, es) && id in s.approvals
    ensures id in Run(s, es).approvals && Inv(Run(s, es))
    ensures Accepted(s, es, (op: Op<B>) => Moves(op, id)) + Measure(Run(s, es).approvals[id])
      <= Measure(s.approvals[id])
    ensures Accepted(s, es, (op: Op<B>) => Moves(op, id)) <= 11
    decreases |es|
  {
    if es != [] {
      StepKeepsInv(s, es[0]);
      MoveLowersMeasure(s, es[0], id);
      TransitionsAreBounded(Step(s, es[0]).0, es[1..], id);
    }
  }

  /**
   In a run from the empty store an approval is completed at most once, and it is completed exactly when it ends up so.
   */
  lemma {:induction false} CompletesAtMostOnce<B>(s: Store<B>, es: seq<Event<B>>, id: Id)
    requires Inv(s) && LegalRun(s, es)
    ensures
      var n := Accepted(s, es, (op: Op<B>) => op.Complete? && op.id == id);
      var before := id in s.approvals && s.approvals[id].exec == Completed;
      var after := id in Run(s, es).approvals && Run(s, es).approvals[id].exec == Completed;
      if before then n == 0 && after else n == (if after then 1 else 0)
    decreases |es|
  {
    if es != [] {
      StepKeepsInv(s, es[0]);
      CompletesAtMostOnce(Step(s, es[0]).0, es[1..], id);
    }
  }

  /** The number of accepted begins is exactly the growth of the attempts counter, so at most five in any run. */
  lemma {:induction false} BeginsAreAttempts<B>(s: Store<B>, es: seq<Event<B>>, id: Id)
    requires Inv(s) && LegalRun(s, es) && id in s.approvals
    ensures id in Run(s, es).approvals
    ensures Accepted(s, es, (op: Op<B>) => op.Begin? && op.id == id)
         == Run(s, es).approvals[id].attempts - s.approvals[id].attempts <= MAX_ATTEMPTS
  {
    RunKeepsInv(s, es);
    BeginsCount(s, es, id);
  }

  lemma {:induction false} BeginsCount<B>(s: Store<B>, es: seq<Event<B>>, id: Id)
    requires id in s.approvals && LegalRun(s, es)
    ensures id in Run(s, es).approvals
    ensures Accepted(s, es, (op: Op<B>) => op.Begin? && op.id == id)
         == Run(s, es).approvals[id].attempts - s.approvals[id].attempts
    decreases |es|
  {
    if es != [] {
      BeginsCount(Step(s, es[0]).0, es[1..], id);
    }
  }
}
