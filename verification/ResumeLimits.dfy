/** What the ledger is for: exactly with one, and for calls that have an id, no executor is entered twice. */
module ResumeLimits {
  import opened Prelude
  import A = Approvals
  import T = Turns
  import opened ResumeProtocol
  import opened ResumeRuns
  import RS = ResumeSafety

  // ---- calls that need no approval ----

  // In no run are two executors entered for one call id of one conversation.
  ghost predicate EntersOnce(cfg: Config, callId: Id) {
    forall acts: seq<Action>, i, j :: 0 <= i < j < |Run(cfg, INIT, acts).stores.hist.entries| ==>
      !SameCall(Run(cfg, INIT, acts).stores.hist.entries[i], Run(cfg, INIT, acts).stores.hist.entries[j], callId)
  }

  predicate SameCall(a: Entry, b: Entry, callId: Id) {
    a.conv == b.conv && a.callId == callId && b.callId == callId
  }

  // A chat worker inside its run.
  ghost predicate Running(s: Sys, conv: Id, entries: nat) {
    && 0 in s.workers && s.workers[0].phase.RunPhase? && s.workers[0].kind.Chat? && s.workers[0].conv == conv
    && |s.stores.hist.entries| == entries
    && forall i :: i in s.stores.ledger ==> i < entries
  }

  lemma {:induction false} StartRunning(cfg: Config, states: iset<Sys>, conv: Id) returns (s: Sys)
    requires Closed(cfg, states) && INIT in states && conv != NO_ID
    ensures s in states && Running(s, conv, 0)
  {
    s := StartChatting(cfg, states, conv, []);
  }

  // A fresh call that needs no approval, up to the ledger.
  lemma {:induction false} CallUp(cfg: Config, states: iset<Sys>, s: Sys, conv: Id, tool: string, callId: Id, n: nat)
    returns (s': Sys)
    requires Closed(cfg, states) && s in states && (!cfg.audited || callId == NO_ID) && (conv, tool) !in cfg.sensitive
    requires Running(s, conv, n)
    ensures s' in states && 0 in s'.workers && s'.workers[0].phase.EnterPhase? && s'.workers[0].kind.Chat?
    ensures s'.workers[0].conv == conv && s'.workers[0].phase.call == Call(tool, "", callId, None)
    ensures s'.stores.hist.entries == s.stores.hist.entries && forall i :: i in s'.stores.ledger ==> i <= n
  {
    s' := ThenAdvance(cfg, states, s, 0, CallTool(tool, "", callId, NO_ID, NO_ID, 0));
    assert s'.stores == s.stores && s'.workers[0].phase == LedgerPhase(Call(tool, "", callId, None));
    s' := ThenAdvance(cfg, states, s', 0, WriteRow(n));
  }

  // What the ledger does not stop goes to its executor, and the model may make the same call again.
  lemma {:induction false} CallOnce(cfg: Config, states: iset<Sys>, s: Sys, conv: Id, tool: string, callId: Id, n: nat)
    returns (s': Sys)
    requires Closed(cfg, states) && s in states && (!cfg.audited || callId == NO_ID) && (conv, tool) !in cfg.sensitive
    requires Running(s, conv, n)
    ensures s' in states && Running(s', conv, n + 1) && s.stores.hist.entries <= s'.stores.hist.entries
    ensures s'.stores.hist.entries[n].conv == conv && s'.stores.hist.entries[n].callId == callId
  {
    s' := CallUp(cfg, states, s, conv, tool, callId, n);
    s' := ThenAdvance(cfg, states, s', 0, Proceed);
    s' := ThenAdvance(cfg, states, s', 0, Skip);
  }

  lemma {:induction false} EntersTwice(cfg: Config, conv: Id, tool: string, callId: Id) returns (acts: seq<Action>)
    requires (!cfg.audited || callId == NO_ID) && (conv, tool) !in cfg.sensitive && conv != NO_ID
    ensures
      var es := Run(cfg, INIT, acts).stores.hist.entries;
      |es| == 2 && SameCall(es[0], es[1], callId)
  {
    ReachableIsClosed(cfg);
    var s := StartRunning(cfg, Reachable(cfg), conv);
    s := CallOnce(cfg, Reachable(cfg), s, conv, tool, callId, 0);
    s := CallOnce(cfg, Reachable(cfg), s, conv, tool, callId, 1);
    assert Reaches(cfg, s);
    acts :| Run(cfg, INIT, acts) == s;
  }

  /** A call is entered at most once in every run exactly if the engine has a ledger and the call an id. */
  lemma {:induction false} EntersOnceIff(cfg: Config, conv: Id, tool: string, callId: Id)
    requires (conv, tool) !in cfg.sensitive && conv != NO_ID
    ensures EntersOnce(cfg, callId) <==> cfg.audited && callId != NO_ID
  {
    if cfg.audited && callId != NO_ID {
      forall acts: seq<Action>, i, j | 0 <= i < j < |Run(cfg, INIT, acts).stores.hist.entries|
        ensures !SameCall(Run(cfg, INIT, acts).stores.hist.entries[i], Run(cfg, INIT, acts).stores.hist.entries[j],
          callId)
      {
        RS.ExecutorsEnteredOnce(cfg, acts, i, j);
      }
    } else {
      var acts := EntersTwice(cfg, conv, tool, callId);
      assert SameCall(Run(cfg, INIT, acts).stores.hist.entries[0], Run(cfg, INIT, acts).stores.hist.entries[1], callId);
    }
  }

  // ---- calls that need one ----

  // In no run are two executors of sensitive tools entered under one approval for this call id.
  ghost predicate SpentOnce(cfg: Config, callId: Id) {
    forall acts: seq<Action>, i, j :: 0 <= i < j < |Run(cfg, INIT, acts).stores.hist.entries| ==>
      !Spent(cfg, Run(cfg, INIT, acts).stores.hist.entries[i], Run(cfg, INIT, acts).stores.hist.entries[j], callId)
  }

  predicate Spent(cfg: Config, a: Entry, b: Entry, callId: Id) {
    && (a.conv, a.tool) in cfg.sensitive && (b.conv, b.tool) in cfg.sensitive && a.approval == b.approval
    && a.callId == callId
  }

  // The executor has been entered under the approval.
  predicate IsSpending(e: Entry, info: Info) {
    e.conv == info.conv && e.tool == info.tool && e.callId == info.callId && e.approval == Some(info.approvalId)
  }

  // The interrupted call is made again, as the target of its resume.
  lemma {:induction false} RerunTarget(cfg: Config, states: iset<Sys>, s: Sys, conv: Id, calls: seq<Info>, n: nat,
      k: nat)
    returns (s': Sys)
    requires Closed(cfg, states) && s in states && calls != [] && Resuming(s, conv, calls, n, k)
    ensures s' in states && s'.stores == s.stores && s'.workers.Keys == s.workers.Keys
    ensures s'.workers[n] == s.workers[n].(phase :=
        LedgerPhase(Call(calls[0].tool, calls[0].args, calls[0].callId, Some(calls[0].approvalId))))
  {
    DataOfCalls(calls);
    assert 0 in s.workers[n].checkpoint.data && s.workers[n].checkpoint.data[0] == calls[0];
    s' := ThenAdvance(cfg, states, s, n, RerunTool(0, 0));
  }

  lemma {:induction false} SpendOnce(cfg: Config, states: iset<Sys>, s: Sys, conv: Id, calls: seq<Info>, n: nat, k: nat)
    returns (s': Sys)
    requires Closed(cfg, states) && s in states && Askable(cfg, conv, calls) && Resuming(s, conv, calls, n, k)
    requires (!cfg.audited || calls[0].callId == NO_ID) && n !in s.stores.ledger
    ensures s' in states && s'.workers.Keys == s.workers.Keys && s'.stores.ledger.Keys <= s.stores.ledger.Keys + {n}
    ensures s'.stores.approvals == s.stores.approvals && s'.stores.turns == s.stores.turns
      && s'.stores.now == s.stores.now
    ensures s.stores.hist.entries <= s'.stores.hist.entries && |s'.stores.hist.entries| == |s.stores.hist.entries| + 1
    ensures IsSpending(s'.stores.hist.entries[|s.stores.hist.entries|], calls[0])
  {
    s' := RerunTarget(cfg, states, s, conv, calls, n, k);
    s' := ThenAdvance(cfg, states, s', n, WriteRow(n));
    assert s'.workers[n].phase.EnterPhase? && s'.stores.hist.entries == s.stores.hist.entries;
    s' := ThenAdvance(cfg, states, s', n, Proceed);
  }

  // The worker crashes, and its leases pass.
  lemma {:induction false} Abandon(cfg: Config, states: iset<Sys>, s: Sys, conv: Id, calls: seq<Info>, n: nat, k: nat)
    returns (s': Sys)
    requires Closed(cfg, states) && s in states && calls != [] && n in s.workers && 0 < k < A.MAX_ATTEMPTS
    requires Attempted(s.stores, conv, calls, k) && A.Holds(s.stores.approvals.approvals[calls[0].approvalId], k)
    requires s.stores.approvals.approvals[calls[0].approvalId].leaseUntil == Some(s.stores.now + LEASE)
    requires conv in s.stores.turns.turns && conv in s.stores.turns.status && s.stores.turns.status[conv] == T.Running
    requires s.stores.turns.turns[conv].leaseUntil == Some(s.stores.now + LEASE)
    ensures s' in states && Open(s'.stores, conv, calls, k) && s'.workers.Keys == s.workers.Keys
    ensures s'.stores.ledger == s.stores.ledger && s'.stores.hist == s.stores.hist
  {
    s' := Then(cfg, states, s, Crash(n));
    assert s'.stores == s.stores;
    s' := Then(cfg, states, s', Tick(LEASE + 1));
  }

  lemma {:induction false} SpendTwice(cfg: Config, info: Info) returns (acts: seq<Action>)
    requires (!cfg.audited || info.callId == NO_ID) && Askable(cfg, info.conv, [info])
    ensures
      var es := Run(cfg, INIT, acts).stores.hist.entries;
      |es| == 2 && IsSpending(es[0], info) && IsSpending(es[1], info)
  {
    ReachableIsClosed(cfg);
    var states, calls := Reachable(cfg), [info];
    var s := ReachResuming(cfg, states, info.conv, calls);
    s := SpendOnce(cfg, states, s, info.conv, calls, 1, 1);
    s := Abandon(cfg, states, s, info.conv, calls, 1, 1);
    s := StartResuming(cfg, states, s, info.conv, calls, 2, 1);
    s := SpendOnce(cfg, states, s, info.conv, calls, 2, 2);
    assert Reaches(cfg, s);
    acts :| Run(cfg, INIT, acts) == s;
  }

  /** An approval is spent at most once in every run exactly if the engine has a ledger and the approved call an id. */
  lemma {:induction false} SpentOnceIff(cfg: Config, conv: Id, tool: string, callId: Id)
    requires (conv, tool) in cfg.sensitive && conv != NO_ID
    ensures SpentOnce(cfg, callId) <==> cfg.audited && callId != NO_ID
  {
    if cfg.audited && callId != NO_ID {
      forall acts: seq<Action>, i, j | 0 <= i < j < |Run(cfg, INIT, acts).stores.hist.entries|
        ensures !Spent(cfg, Run(cfg, INIT, acts).stores.hist.entries[i], Run(cfg, INIT, acts).stores.hist.entries[j],
          callId)
      {
        RS.ApprovalsAreSpentOnce(cfg, acts, i, j);
      }
    } else {
      var acts := SpendTwice(cfg, Info(1, conv, tool, "", callId));
      assert Spent(cfg, Run(cfg, INIT, acts).stores.hist.entries[0], Run(cfg, INIT, acts).stores.hist.entries[1],
        callId);
    }
  }
}
