/** Being committed does not mean being completed: a run that leaves the approval of a committed turn failed. */
module ResumeOverruled {
  import opened Prelude
  import A = Approvals
  import T = Turns
  import Text
  import opened ResumeProtocol
  import opened ResumeInvariant
  import opened ResumeRuns

  lemma {:induction false} AnswerIsAnswer()
    ensures Text.TrimSpace("a") == "a"
  {
    assert Text.TrimLeft("a") == "a";
    assert Text.TrimRight("a") == "a";
  }

  // Its turn is committed and the answer given, and its heartbeats still beat.
  lemma {:induction false} ReachCommitted(cfg: Config, states: iset<Sys>, conv: Id, tool: string) returns (s: Sys)
    requires Closed(cfg, states) && INIT in states && (conv, tool) in cfg.sensitive && conv != NO_ID
    ensures s in states && 1 in s.workers && s.workers[1].phase.TurnExit? && s.workers[1].finalized
    ensures s.workers[1].kind == Resume(1) && s.workers[1].conv == conv && s.workers[1].exec == 1
    ensures s.workers[1].turnBeat == Beating && s.workers[1].ret == RetNil
    ensures !T.Holds(s.stores.turns, conv, s.workers[1].turn) && AttemptCommitted(s.stores, conv, 1)
    ensures 1 in s.stores.approvals.approvals && s.stores.approvals.approvals[1].conversationId == conv
    ensures A.Holds(s.stores.approvals.approvals[1], 1) && s.stores.approvals.approvals[1].status == A.Approved
    ensures s.stores.approvals.approvals[1].attempts == 1 && 1 in s.stores.hist.attempts
      && s.stores.hist.attempts[1].approvalId == 1
  {
    s := ReachResuming(cfg, states, conv, [Info(1, conv, tool, "", NO_ID)]);
    AnswerIsAnswer();
    s := ThenAdvance(cfg, states, s, 1, EndAnswer("a"));
    var n := |s.stores.hist.commits|;
    s := ThenAdvance(cfg, states, s, 1, Proceed);
    assert s.stores.hist.commits[n].attempt == Some(1) && s.stores.hist.commits[n].conv == conv;
  }

  // The heartbeat finds the turn given back, and its refusal turns the answer into an error.
  lemma {:induction false} ReachOverruled(cfg: Config, states: iset<Sys>, conv: Id, tool: string) returns (s: Sys)
    requires Closed(cfg, states) && INIT in states && (conv, tool) in cfg.sensitive && conv != NO_ID
    ensures s in states && 1 in s.workers && s.workers[1].phase.ApprovalExit? && s.workers[1].ret == RetErr
    ensures s.workers[1].kind == Resume(1) && s.workers[1].exec == 1 && AttemptCommitted(s.stores, conv, 1)
    ensures 1 in s.stores.approvals.approvals && A.Holds(s.stores.approvals.approvals[1], 1)
    ensures s.stores.approvals.approvals[1].status == A.Approved && s.stores.approvals.approvals[1].attempts == 1
    ensures 1 in s.stores.hist.attempts && s.stores.hist.attempts[1].approvalId == 1
  {
    s := ReachCommitted(cfg, states, conv, tool);
    s := Then(cfg, states, s, BeatTurn(1));
    s := ThenAdvance(cfg, states, s, 1, Proceed);
  }

  lemma {:induction false} ReachFailed(cfg: Config, states: iset<Sys>, conv: Id, tool: string) returns (s: Sys)
    requires Closed(cfg, states) && INIT in states && (conv, tool) in cfg.sensitive && conv != NO_ID
    ensures s in states && CommittedAndFailed(s.stores, conv)
  {
    s := ReachOverruled(cfg, states, conv, tool);
    s := ThenAdvance(cfg, states, s, 1, Proceed);
    s := ThenAdvance(cfg, states, s, 1, Proceed);
  }

  // Attempt 1 at approval 1 committed its turn, and the approval is failed and may be begun again.
  ghost predicate CommittedAndFailed(s: Stores, conv: Id) {
    && AttemptCommitted(s, conv, 1) && 1 in s.hist.attempts && s.hist.attempts[1].approvalId == 1
    && A.Startable(s.approvals, 1, s.now) && s.approvals.approvals[1].exec == A.Failed
  }

  /**
   Being committed does not mean being completed: for every sensitive tool there is a run whose attempt commits
   its turn, loses the turn's heartbeat before it stops it, and leaves the approval failed and startable.
   */
  lemma {:induction false} CommittedYetFailed(cfg: Config, conv: Id, tool: string) returns (acts: seq<Action>)
    requires (conv, tool) in cfg.sensitive && conv != NO_ID
    ensures CommittedAndFailed(Run(cfg, INIT, acts).stores, conv)
  {
    ReachableIsClosed(cfg);
    var s := ReachFailed(cfg, Reachable(cfg), conv, tool);
    assert Reaches(cfg, s);
    acts :| Run(cfg, INIT, acts) == s;
  }
}
