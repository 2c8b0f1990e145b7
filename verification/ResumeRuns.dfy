/**
 Runs that lead up to a resume: a chat asks for sensitive calls and is interrupted, the approvals are granted, and
 a worker resumes the first of them.  ResumeLimits, ResumeOverruled and ResumeReraised go on from there.  A lemma
 takes the system from one state to a later one, inside any set of states that is closed under its steps.
 */
module ResumeRuns {
  import opened Prelude
  import A = Approvals
  import T = Turns
  import opened ResumeProtocol
  import opened ResumeInvariant

  // One more action.
  lemma {:induction false} Then(cfg: Config, states: iset<Sys>, s: Sys, a: Action) returns (s': Sys)
    requires Closed(cfg, states) && s in states
    ensures s' in states && s' == Next(cfg, s, a)
  {
    s' := Next(cfg, s, a);
  }

  lemma {:induction false} ThenAdvance(cfg: Config, states: iset<Sys>, s: Sys, n: nat, c: Choice) returns (s': Sys)
    requires Closed(cfg, states) && s in states && n in s.workers
    ensures s' in states
    ensures
      var (stores, w) := StepWorker(cfg, s.stores, n, s.workers[n], c);
      s' == Sys(stores, s.workers[n := w])
  {
    s' := Then(cfg, states, s, Advance(n, c));
  }

  // ---- the calls of the chat ----

  // Sensitive calls of one conversation, each with an approval of its own.
  predicate Askable(cfg: Config, conv: Id, calls: seq<Info>) {
    && conv != NO_ID && calls != []
    && (forall i :: 0 <= i < |calls| ==>
          calls[i].conv == conv && (conv, calls[i].tool) in cfg.sensitive && calls[i].approvalId != NO_ID)
    && (forall i, j :: 0 <= i < j < |calls| ==> calls[i].approvalId != calls[j].approvalId)
  }

  // Their interrupts, numbered in order.
  function RaisedOf(calls: seq<Info>): (r: seq<Raised>)
    ensures |r| == |calls| && forall i :: 0 <= i < |r| ==> r[i] == Raised(i, calls[i])
  {
    seq(|calls|, i requires 0 <= i < |calls| => Raised(i, calls[i]))
  }

  lemma {:induction false} DataOfCalls(calls: seq<Info>)
    ensures forall k: nat :: k in DataOf(RaisedOf(calls)) <==> k < |calls|
    ensures forall k: nat :: k in DataOf(RaisedOf(calls)) ==> DataOf(RaisedOf(calls))[k] == calls[k]
  {
    if calls != [] {
      var front, last := calls[..|calls| - 1], calls[|calls| - 1];
      DataOfCalls(front);
      assert RaisedOf(calls)[..|calls| - 1] == RaisedOf(front);
      var data := DataOf(RaisedOf(calls));
      assert data == DataOf(RaisedOf(front))[|front| := last];
      forall k: nat
        ensures k in data <==> k < |calls|
        ensures k in data ==> data[k] == calls[k]
      {
        if k < |front| {
          assert k in DataOf(RaisedOf(front)) && front[k] == calls[k];
        }
      }
    }
  }

  // The approval of a call, as it was asked for and as it was granted, and the checkpoint of its interrupt.
  function Asked(info: Info): A.Approval {
    A.NewApproval(NO_ID, info.conv, info.tool, info.args, 0)
  }

  function Granted(info: Info): A.Approval {
    Asked(info).(status := A.Approved, resolvedAt := Some(0))
  }

  function SavedFor(conv: Id, calls: seq<Info>, i: nat): A.Checkpoint<Payload> {
    A.Checkpoint(conv, Payload(i, DataOf(RaisedOf(calls))))
  }

  // The first n calls have been asked for.
  ghost predicate AskedFirst(a: A.Store<Payload>, calls: seq<Info>, n: nat)
    requires n <= |calls|
  {
    && a.checkpoints == map[] && a.issued == 0
    && (forall id :: id in a.approvals ==> exists i :: 0 <= i < n && calls[i].approvalId == id)
    && (forall i :: 0 <= i < n ==>
      calls[i].approvalId in a.approvals && a.approvals[calls[i].approvalId] == Asked(calls[i]))
  }

  // All have been asked for, and the first n have their checkpoints.
  ghost predicate SavedFirst(a: A.Store<Payload>, conv: Id, calls: seq<Info>, n: nat)
    requires n <= |calls|
  {
    && a.issued == 0
    && (forall i :: 0 <= i < |calls| ==>
      calls[i].approvalId in a.approvals && a.approvals[calls[i].approvalId] == Asked(calls[i]))
    && (forall i :: 0 <= i < |calls| ==> (calls[i].approvalId in a.checkpoints <==> i < n))
    && (forall i :: 0 <= i < n ==> a.checkpoints[calls[i].approvalId] == SavedFor(conv, calls, i))
  }

  // Every call has its checkpoint, and the first n are granted.
  ghost predicate GrantedFirst(a: A.Store<Payload>, conv: Id, calls: seq<Info>, n: nat) {
    && a.issued == 0 && AllSaved(a, conv, calls)
    && forall i :: 0 <= i < |calls| ==>
         && calls[i].approvalId in a.approvals
         && a.approvals[calls[i].approvalId] == (if i < n then Granted(calls[i]) else Asked(calls[i]))
  }

  ghost predicate AllSaved(a: A.Store<Payload>, conv: Id, calls: seq<Info>) {
    && (forall i :: 0 <= i < |calls| ==> calls[i].approvalId in a.checkpoints)
    && (forall i :: 0 <= i < |calls| ==> a.checkpoints[calls[i].approvalId] == SavedFor(conv, calls, i))
  }

  lemma {:induction false} AskMore(a: A.Store<Payload>, conv: Id, cfg: Config, calls: seq<Info>, n: nat)
    requires Askable(cfg, conv, calls) && n < |calls| && AskedFirst(a, calls, n)
    ensures calls[n].approvalId !in a.approvals
    ensures AskedFirst(A.CreatePending(a, calls[n].approvalId, NO_ID, conv, calls[n].tool, calls[n].args, 0), calls,
      n + 1)
  {
  }

  lemma {:induction false} SaveMore(a: A.Store<Payload>, conv: Id, cfg: Config, calls: seq<Info>, n: nat)
    requires Askable(cfg, conv, calls) && n < |calls| && SavedFirst(a, conv, calls, n)
    ensures
      var (a', r) := A.SaveCheckpoint(a, calls[n].approvalId, conv, Payload(n, DataOf(RaisedOf(calls))));
      r.Ok? && SavedFirst(a', conv, calls, n + 1)
  {
  }

  lemma {:induction false} GrantMore(a: A.Store<Payload>, conv: Id, cfg: Config, calls: seq<Info>, n: nat)
    requires Askable(cfg, conv, calls) && n < |calls| && GrantedFirst(a, conv, calls, n)
    ensures
      var (a', r) := A.ResolvePending(a, calls[n].approvalId, NO_ID, A.Approved, NO_ID, 0);
      r.Ok? && GrantedFirst(a', conv, calls, n + 1)
  {
  }

  // ---- the chat ----

  // Worker 0 alone is at work, and no tool has been called.
  ghost predicate Untouched(s: Sys) {
    s.workers.Keys == {0} && s.stores.now == 0 && s.stores.ledger == map[] && s.stores.hist.entries == []
  }

  // The chat, with the turn it holds.
  ghost predicate Chatting(s: Sys, conv: Id) {
    && Untouched(s) && s.workers[0].kind == Chat("") && s.workers[0].conv == conv && !s.workers[0].finalized
    && T.Holds(s.stores.turns, conv, s.workers[0].turn)
  }

  ghost predicate Asking(s: Sys, conv: Id, calls: seq<Info>, n: nat)
    requires n <= |calls|
  {
    && Chatting(s, conv) && AskedFirst(s.stores.approvals, calls, n)
    && s.workers[0].phase.RunPhase? && s.workers[0].raised == RaisedOf(calls[..n])
  }

  lemma {:induction false} StartChatting(cfg: Config, states: iset<Sys>, conv: Id, calls: seq<Info>) returns (s: Sys)
    requires Closed(cfg, states) && INIT in states && conv != NO_ID
    ensures s in states && Asking(s, conv, calls, 0)
  {
    s := Then(cfg, states, INIT, NewConversation(conv));
    s := Then(cfg, states, s, StartChat(0, conv, ""));
    s := ThenAdvance(cfg, states, s, 0, Proceed);
    s := ThenAdvance(cfg, states, s, 0, Proceed);
  }

  lemma {:induction false} RaisedMore(calls: seq<Info>, n: nat)
    requires n < |calls|
    ensures RaisedOf(calls[..n]) + [Raised(n, calls[n])] == RaisedOf(calls[..n + 1])
    ensures n !in DataOf(RaisedOf(calls[..n]))
  {
    DataOfCalls(calls[..n]);
  }

  // A sensitive call with unused ids: one approval and one interrupt more.
  lemma {:induction false} CallRaises(cfg: Config, s: Stores, w: Worker, info: Info, k: nat)
    requires w.phase.RunPhase? && (w.conv, info.tool) in cfg.sensitive && info.conv == w.conv
    requires info.approvalId != NO_ID && info.approvalId !in s.approvals.approvals && k !in DataOf(w.raised)
    ensures
      var c := CallTool(info.tool, info.args, info.callId, NO_ID, info.approvalId, k);
      var a := A.CreatePending(s.approvals, info.approvalId, NO_ID, w.conv, info.tool, info.args, s.now);
      StepWorker(cfg, s, 0, w, c) ==
        (s.(approvals := a, hist := s.hist.(asked := s.hist.asked[info.approvalId := info.callId])),
         w.(raised := w.raised + [Raised(k, info)]))
  {
  }

  lemma {:induction false} AskOnce(cfg: Config, states: iset<Sys>, s: Sys, conv: Id, calls: seq<Info>, n: nat)
    returns (s': Sys)
    requires Closed(cfg, states) && s in states && Askable(cfg, conv, calls)
    requires n < |calls| && Asking(s, conv, calls, n)
    ensures s' in states && Asking(s', conv, calls, n + 1)
  {
    var info, w := calls[n], s.workers[0];
    RaisedMore(calls, n);
    AskMore(s.stores.approvals, conv, cfg, calls, n);
    CallRaises(cfg, s.stores, w, info, n);
    s' := ThenAdvance(cfg, states, s, 0, CallTool(info.tool, info.args, info.callId, NO_ID, info.approvalId, n));
    assert s'.workers[0] == w.(raised := RaisedOf(calls[..n + 1]));
  }

  lemma {:induction false} AskAll(cfg: Config, states: iset<Sys>, conv: Id, calls: seq<Info>, n: nat) returns (s: Sys)
    requires Closed(cfg, states) && INIT in states && Askable(cfg, conv, calls) && n <= |calls|
    ensures s in states && Asking(s, conv, calls, n)
  {
    if n == 0 {
      s := StartChatting(cfg, states, conv, calls);
    } else {
      s := AskAll(cfg, states, conv, calls, n - 1);
      s := AskOnce(cfg, states, s, conv, calls, n - 1);
    }
  }

  // The run was interrupted, and the first n interrupts have been saved.
  ghost predicate Saving(s: Sys, conv: Id, calls: seq<Info>, n: nat)
    requires n <= |calls|
  {
    && Chatting(s, conv) && SavedFirst(s.stores.approvals, conv, calls, n)
    && s.workers[0].phase == PersistPhase(RaisedOf(calls)[n..]) && s.workers[0].raised == RaisedOf(calls)
  }

  lemma {:induction false} Interrupt(cfg: Config, states: iset<Sys>, s: Sys, conv: Id, calls: seq<Info>)
      returns (s': Sys)
    requires Closed(cfg, states) && s in states && Askable(cfg, conv, calls) && Asking(s, conv, calls, |calls|)
    ensures s' in states && Saving(s', conv, calls, 0)
  {
    assert calls[..|calls|] == calls && RaisedOf(calls)[0..] == RaisedOf(calls);
    s' := ThenAdvance(cfg, states, s, 0, EndInterrupted);
  }

  lemma {:induction false} SaveOnce(cfg: Config, states: iset<Sys>, s: Sys, conv: Id, calls: seq<Info>, n: nat)
    returns (s': Sys)
    requires Closed(cfg, states) && s in states && Askable(cfg, conv, calls) && n < |calls| && Saving(s, conv, calls, n)
    ensures s' in states && Saving(s', conv, calls, n + 1)
  {
    var todo := RaisedOf(calls)[n..];
    assert todo != [] && todo[0] == Raised(n, calls[n]) && todo[1..] == RaisedOf(calls)[n + 1..];
    SaveMore(s.stores.approvals, conv, cfg, calls, n);
    s' := ThenAdvance(cfg, states, s, 0, Proceed);
  }

  lemma {:induction false} SaveAll(cfg: Config, states: iset<Sys>, conv: Id, calls: seq<Info>, n: nat) returns (s: Sys)
    requires Closed(cfg, states) && INIT in states && Askable(cfg, conv, calls) && n <= |calls|
    ensures s in states && Saving(s, conv, calls, n)
  {
    if n == 0 {
      s := AskAll(cfg, states, conv, calls, |calls|);
      s := Interrupt(cfg, states, s, conv, calls);
    } else {
      s := SaveAll(cfg, states, conv, calls, n - 1);
      s := SaveOnce(cfg, states, s, conv, calls, n - 1);
    }
  }

  // The conversation waits, and the first n approvals are granted.
  ghost predicate Waiting(s: Sys, conv: Id, calls: seq<Info>, n: nat) {
    && Untouched(s) && GrantedFirst(s.stores.approvals, conv, calls, n)
    && conv in s.stores.turns.turns && conv in s.stores.turns.status
    && s.stores.turns.turns[conv].token == T.NoTurn && s.stores.turns.status[conv] == T.AwaitingApproval
  }

  lemma {:induction false} EndWaiting(cfg: Config, states: iset<Sys>, s: Sys, conv: Id, calls: seq<Info>)
      returns (s': Sys)
    requires Closed(cfg, states) && s in states && Askable(cfg, conv, calls) && Saving(s, conv, calls, |calls|)
    ensures s' in states && Waiting(s', conv, calls, 0)
  {
    assert s.workers[0].phase == PersistPhase([]);
    s' := ThenAdvance(cfg, states, s, 0, Proceed);
    assert s'.stores == s.stores && s'.workers[0].phase == CommitPhase([T.Message(T.User, "")], T.AwaitingApproval);
    s' := ThenAdvance(cfg, states, s', 0, Proceed);
    assert s'.stores.approvals == s.stores.approvals && s'.workers[0].phase.TurnExit? && s'.workers[0].finalized;
  }

  lemma {:induction false} GrantOnce(cfg: Config, states: iset<Sys>, s: Sys, conv: Id, calls: seq<Info>, n: nat)
    returns (s': Sys)
    requires Closed(cfg, states) && s in states && Askable(cfg, conv, calls) && n < |calls|
      && Waiting(s, conv, calls, n)
    ensures s' in states && Waiting(s', conv, calls, n + 1)
  {
    GrantMore(s.stores.approvals, conv, cfg, calls, n);
    s' := Then(cfg, states, s, Decide(calls[n].approvalId, NO_ID, A.Approved, NO_ID, true));
  }

  lemma {:induction false} GrantAll(cfg: Config, states: iset<Sys>, conv: Id, calls: seq<Info>, n: nat) returns (s: Sys)
    requires Closed(cfg, states) && INIT in states && Askable(cfg, conv, calls) && n <= |calls|
    ensures s in states && Waiting(s, conv, calls, n)
  {
    if n == 0 {
      s := SaveAll(cfg, states, conv, calls, |calls|);
      s := EndWaiting(cfg, states, s, conv, calls);
    } else {
      s := GrantAll(cfg, states, conv, calls, n - 1);
      s := GrantOnce(cfg, states, s, conv, calls, n - 1);
    }
  }

  // ---- the resume ----

  // The first approval has been begun this often, and every call has the checkpoint it was saved with.
  ghost predicate Attempted(s: Stores, conv: Id, calls: seq<Info>, attempts: nat)
    requires calls != []
  {
    && AllSaved(s.approvals, conv, calls) && calls[0].approvalId in s.approvals.approvals
    && s.approvals.issued == attempts
    && var a := s.approvals.approvals[calls[0].approvalId];
       a.status == A.Approved && a.conversationId == conv && a.attempts == attempts
  }

  // The first approval can be begun, and the conversation's turn claimed.
  ghost predicate Open(s: Stores, conv: Id, calls: seq<Info>, attempts: nat)
    requires calls != []
  {
    && Attempted(s, conv, calls, attempts) && attempts < A.MAX_ATTEMPTS
    && A.Reclaimable(s.approvals.approvals[calls[0].approvalId], s.now) && TurnIsFree(s, conv)
  }

  predicate TurnIsFree(s: Stores, conv: Id) {
    conv in s.turns.status && T.Claimable(s.turns.status[conv], T.TurnOf(s.turns, conv), true, s.now)
  }

  // Worker n works on this attempt, and holds its lease.
  ghost predicate Begun(s: Sys, conv: Id, calls: seq<Info>, n: nat, attempt: nat)
    requires calls != []
  {
    && n in s.workers && s.workers[n].kind == Resume(calls[0].approvalId) && s.workers[n].conv == conv
    && s.workers[n].exec == attempt && s.workers[n].raised == [] && !s.workers[n].finalized
    && s.workers[n].releaseStatus == T.AwaitingApproval && Attempted(s.stores, conv, calls, attempt)
    && A.Holds(s.stores.approvals.approvals[calls[0].approvalId], attempt)
    && s.stores.approvals.approvals[calls[0].approvalId].leaseUntil == Some(s.stores.now + LEASE)
    && attempt in s.stores.hist.attempts && s.stores.hist.attempts[attempt].approvalId == calls[0].approvalId
  }

  // It also holds the turn, and is inside its run.
  ghost predicate Resuming(s: Sys, conv: Id, calls: seq<Info>, n: nat, attempt: nat)
    requires calls != []
  {
    && Begun(s, conv, calls, n, attempt) && s.workers[n].phase.RunPhase? && s.workers[n].turnBeat == Beating
    && s.workers[n].checkpoint == Payload(0, DataOf(RaisedOf(calls)))
    && T.Holds(s.stores.turns, conv, s.workers[n].turn)
    && s.stores.turns.turns[conv].leaseUntil == Some(s.stores.now + LEASE)
  }

  // No tool was called meanwhile, and no time has passed.
  ghost predicate Quietly(s: Sys, s': Sys, n: nat) {
    && s'.stores.ledger == s.stores.ledger && s'.stores.hist.entries == s.stores.hist.entries
    && s'.stores.now == s.stores.now && s'.workers.Keys == s.workers.Keys + {n}
  }

  lemma {:induction false} Begin(cfg: Config, states: iset<Sys>, s: Sys, conv: Id, calls: seq<Info>, n: nat, k: nat)
    returns (s': Sys)
    requires Closed(cfg, states) && s in states && calls != [] && n !in s.workers && Open(s.stores, conv, calls, k)
    ensures s' in states && Begun(s', conv, calls, n, k + 1) && s'.workers[n].phase.ClaimPhase? && Quietly(s, s', n)
    ensures s'.stores.turns == s.stores.turns
  {
    s' := Then(cfg, states, s, StartResume(n, conv, calls[0].approvalId));
    assert s'.stores == s.stores && s'.workers[n] == NewWorker(Resume(calls[0].approvalId), conv, BeginPhase);
    s' := ThenAdvance(cfg, states, s', n, Proceed);
  }

  lemma {:induction false} ClaimAndLoad(cfg: Config, states: iset<Sys>, s: Sys, conv: Id, calls: seq<Info>, n: nat,
      k: nat)
    returns (s': Sys)
    requires Closed(cfg, states) && s in states && calls != [] && Begun(s, conv, calls, n, k)
    requires s.workers[n].phase.ClaimPhase? && TurnIsFree(s.stores, conv)
    ensures s' in states && Resuming(s', conv, calls, n, k) && Quietly(s, s', n)
  {
    s' := ThenAdvance(cfg, states, s, n, Proceed);
    assert s'.stores.approvals == s.stores.approvals && s'.workers[n].phase.LoadPhase?;
    assert s'.stores.approvals.checkpoints[calls[0].approvalId] == SavedFor(conv, calls, 0);
    s' := ThenAdvance(cfg, states, s', n, Proceed);
  }

  lemma {:induction false} StartResuming(cfg: Config, states: iset<Sys>, s: Sys, conv: Id, calls: seq<Info>, n: nat,
      k: nat)
    returns (s': Sys)
    requires Closed(cfg, states) && s in states && calls != [] && n !in s.workers && Open(s.stores, conv, calls, k)
    ensures s' in states && Resuming(s', conv, calls, n, k + 1) && Quietly(s, s', n)
  {
    s' := Begin(cfg, states, s, conv, calls, n, k);
    s' := ClaimAndLoad(cfg, states, s', conv, calls, n, k + 1);
  }

  // Worker 1 is inside the run that resumes the first of the calls, all of which were granted.
  lemma {:induction false} ReachResuming(cfg: Config, states: iset<Sys>, conv: Id, calls: seq<Info>) returns (s: Sys)
    requires Closed(cfg, states) && INIT in states && Askable(cfg, conv, calls)
    ensures s in states && Resuming(s, conv, calls, 1, 1) && s.workers.Keys == {0, 1} && s.stores.now == 0
    ensures s.stores.ledger == map[] && s.stores.hist.entries == []
  {
    s := GrantAll(cfg, states, conv, calls, |calls|);
    assert s.stores.approvals.approvals[calls[0].approvalId] == Granted(calls[0]);
    s := StartResuming(cfg, states, s, conv, calls, 1, 0);
  }
}
