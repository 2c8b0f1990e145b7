/**
 A run that made two sensitive calls cannot be resumed one call at a time.  Resuming the one interrupts the other
 again, under the approval it already has; but that approval's checkpoint is never saved twice.  So the attempt
 fails after its executor was entered, and so does every later one.
 */
module ResumeReraised {
  import opened Prelude
  import A = Approvals
  import T = Turns
  import TR = TurnRuns
  import L = ToolLedger
  import opened ResumeProtocol
  import opened ResumeInvariant
  import opened ResumeFrames
  import opened ResumeRuns
  import RL = ResumeLimits
  import RS = ResumeSafety
  import RV = ResumeVerdict

  // ---- checkpoints stay ----

  ghost predicate CheckpointsStay(s: Stores, s': Stores) {
    forall id :: id in s.approvals.checkpoints ==> id in s'.approvals.checkpoints
  }

  lemma {:induction false} ActorKeepsCheckpoints(cfg: Config, s: Stores, s': Stores, n: nat, w: Worker, a: Action)
    requires TR.Inv(s.turns) && s' == StepActor(cfg, s, n, w, a).0
    ensures CheckpointsStay(s, s')
  {
    if !Loud(a, w) {
      ActorIsQuiet(cfg, s, s', n, w, a);
    }
  }

  lemma {:induction false} NextKeepsCheckpoints(cfg: Config, sys: Sys, a: Action)
    requires Inv(cfg, sys)
    ensures CheckpointsStay(sys.stores, Next(cfg, sys, a).stores)
  {
    if OfActor(a) {
      if a.worker in sys.workers {
        ActorKeepsCheckpoints(cfg, sys.stores, Next(cfg, sys, a).stores, a.worker, sys.workers[a.worker], a);
      }
    } else if !a.StartChat? && !a.StartResume? {
      WorldIsQuiet(sys.stores, Next(cfg, sys, a).stores, a);
    }
  }

  // ---- an attempt that interrupts a saved call again ----

  ghost predicate AnySaved(s: Stores, raised: seq<Raised>) {
    exists i :: 0 <= i < |raised| && raised[i].info.approvalId in s.approvals.checkpoints
  }

  // The resume has interrupted again a call whose approval has a checkpoint, or has already failed for it.
  ghost predicate Doomed(s: Stores, w: Worker) {
    w.kind.Resume? &&
      match w.phase
      case RunPhase => AnySaved(s, w.raised)
      case LedgerPhase(_) => AnySaved(s, w.raised)
      case EnterPhase(_, _) => AnySaved(s, w.raised)
      case ClosePhase(_) => AnySaved(s, w.raised)
      case PersistPhase(todo) => AnySaved(s, todo)
      case TurnExit => w.ret == RetErr
      case ApprovalExit => w.ret == RetErr
      case SettlePhase => w.ret == RetErr
      case Gone => true
      case _ => false
  }

  // The run of this worker does not end in an answer, and none of its interrupts is passed over.
  predicate StaysInterrupted(a: Action, n: nat) {
    (a.Advance? || a.Stumble?) && a.worker == n ==> !a.choice.EndAnswer? && !a.choice.Skip?
  }

  lemma {:induction false} SavedStays(s: Stores, s': Stores, raised: seq<Raised>)
    requires CheckpointsStay(s, s') && AnySaved(s, raised)
    ensures AnySaved(s', raised)
  {
    var i :| 0 <= i < |raised| && raised[i].info.approvalId in s.approvals.checkpoints;
    assert raised[i].info.approvalId in s'.approvals.checkpoints;
  }

  lemma {:induction false} DoomStays(s: Stores, s': Stores, w: Worker)
    requires CheckpointsStay(s, s') && Doomed(s, w)
    ensures Doomed(s', w)
  {
    if w.phase.PersistPhase? {
      SavedStays(s, s', w.phase.todo);
    } else if AnySaved(s, w.raised) {
      SavedStays(s, s', w.raised);
    }
  }

  // Saving comes to the checkpoint that exists, and is refused there if not before.
  lemma {:induction false} PersistingStaysDoomed(s: Stores, s': Stores, w: Worker, w': Worker)
    requires w.kind.Resume? && w.phase.PersistPhase? && AnySaved(s, w.phase.todo) && CheckpointsStay(s, s')
    requires (s', w') == StepPersist(s, w, w.phase.todo, false)
    ensures Doomed(s', w')
  {
    var todo := w.phase.todo;
    var i :| 0 <= i < |todo| && todo[i].info.approvalId in s.approvals.checkpoints;
    if w'.phase.PersistPhase? {
      assert i > 0;
      assert todo[1..][i - 1] == todo[i];
      assert AnySaved(s', todo[1..]);
    }
  }

  lemma {:induction false} MoreRaisedStaysSaved(s: Stores, raised: seq<Raised>, more: seq<Raised>)
    requires AnySaved(s, raised) && raised <= more
    ensures AnySaved(s, more)
  {
    var i :| 0 <= i < |raised| && raised[i].info.approvalId in s.approvals.checkpoints;
    assert more[i] == raised[i];
  }

  lemma {:induction false} RunningStaysDoomed(cfg: Config, s: Stores, s': Stores, w: Worker, w': Worker, c: Choice)
    requires w.kind.Resume? && w.phase.RunPhase? && AnySaved(s, w.raised) && CheckpointsStay(s, s')
    requires (s', w') == StepRun(cfg, s, w, c) && !c.EndAnswer?
    ensures Doomed(s', w')
  {
    assert w.raised <= w'.raised;
    SavedStays(s, s', w.raised);
    MoreRaisedStaysSaved(s', w.raised, w'.raised);
  }

  lemma {:induction false} StepStaysDoomed(cfg: Config, s: Stores, s': Stores, n: nat, w: Worker, w': Worker, c: Choice)
    requires Doomed(s, w) && CheckpointsStay(s, s') && (s', w') == StepWorker(cfg, s, n, w, c)
    requires !c.EndAnswer? && !c.Skip?
    ensures Doomed(s', w')
  {
    if !(c.GoWrong? && CanGoWrong(w)) {
      match w.phase
      case RunPhase => RunningStaysDoomed(cfg, s, s', w, w', c);
      case PersistPhase(_) => PersistingStaysDoomed(s, s', w, w');
      case LedgerPhase(_) => SavedStays(s, s', w.raised);
      case EnterPhase(_, _) => SavedStays(s, s', w.raised);
      case ClosePhase(_) => SavedStays(s, s', w.raised);
      case _ =>
    }
  }

  lemma {:induction false} ActorStaysDoomed(cfg: Config, s: Stores, s': Stores, n: nat, w: Worker, w': Worker,
      a: Action)
    requires Doomed(s, w) && CheckpointsStay(s, s') && (s', w') == StepActor(cfg, s, n, w, a)
    requires (a.Advance? || a.Stumble?) ==> !a.choice.EndAnswer? && !a.choice.Skip?
    ensures Doomed(s', w')
  {
    DoomStays(s, s', w);
    match a
    case Advance(_, c) => StepStaysDoomed(cfg, s, s', n, w, w', c);
    case Stumble(_, _, _) => if CallsStore(w) && w.phase.LedgerPhase? { assert w' == w.(phase := RunPhase); }
    case _ =>
  }

  lemma {:induction false} NextStaysDoomed(cfg: Config, sys: Sys, a: Action, n: nat)
    requires Inv(cfg, sys) && n in sys.workers && Doomed(sys.stores, sys.workers[n]) && StaysInterrupted(a, n)
    ensures n in Next(cfg, sys, a).workers && Doomed(Next(cfg, sys, a).stores, Next(cfg, sys, a).workers[n])
  {
    NextKeepsCheckpoints(cfg, sys, a);
    var sys' := Next(cfg, sys, a);
    if OfActor(a) && a.worker == n {
      ActorStaysDoomed(cfg, sys.stores, sys'.stores, n, sys.workers[n], sys'.workers[n], a);
    } else {
      DoomStays(sys.stores, sys'.stores, sys.workers[n]);
    }
  }

  lemma {:induction false} RunStaysDoomed(cfg: Config, sys: Sys, acts: seq<Action>, n: nat)
    requires Inv(cfg, sys) && n in sys.workers && Doomed(sys.stores, sys.workers[n])
    requires forall a <- acts :: StaysInterrupted(a, n)
    ensures Inv(cfg, Run(cfg, sys, acts)) && n in Run(cfg, sys, acts).workers
    ensures Doomed(Run(cfg, sys, acts).stores, Run(cfg, sys, acts).workers[n])
    decreases |acts|
  {
    if acts != [] {
      assert acts[0] in acts && forall a <- acts[1..] :: a in acts;
      RS.NextKeepsInv(cfg, sys, acts[0]);
      NextStaysDoomed(cfg, sys, acts[0], n);
      RunStaysDoomed(cfg, Next(cfg, sys, acts[0]), acts[1..], n);
    }
  }

  /**
   A resume that has interrupted again a call whose approval has a checkpoint never commits its turn, whatever
   anybody does, unless its run ends in an answer or passes over an interrupt.  When it settles, it fails its
   approval.
   */
  lemma {:induction false} ReraisedNeverCompletes(cfg: Config, before: seq<Action>, acts: seq<Action>, n: nat)
    requires n in Run(cfg, INIT, before).workers
    requires Run(cfg, INIT, before).workers[n].kind.Resume? && Run(cfg, INIT, before).workers[n].phase.RunPhase?
    requires AnySaved(Run(cfg, INIT, before).stores, Run(cfg, INIT, before).workers[n].raised)
    requires forall a <- acts :: StaysInterrupted(a, n)
    ensures n in Run(cfg, INIT, before + acts).workers && !Run(cfg, INIT, before + acts).workers[n].phase.CommitPhase?
    ensures FailsIfItSettles(cfg, Run(cfg, INIT, before + acts), n)
  {
    RS.RunKeepsInv(cfg, INIT, before);
    RunConcat(cfg, INIT, before, acts);
    RunStaysDoomed(cfg, Run(cfg, INIT, before), acts, n);
    var sys := Run(cfg, INIT, before + acts);
    if Settling(sys, n) {
      RV.SettleReports(cfg, sys, n, sys.workers[n]);
    }
  }

  // The worker is about to settle, and still holds its approval.
  ghost predicate Settling(sys: Sys, n: nat) {
    && n in sys.workers && sys.workers[n].phase.SettlePhase? && sys.workers[n].kind.Resume?
    && sys.workers[n].kind.approvalId in sys.stores.approvals.approvals
    && A.Holds(sys.stores.approvals.approvals[sys.workers[n].kind.approvalId], sys.workers[n].exec)
  }

  ghost predicate FailsIfItSettles(cfg: Config, sys: Sys, n: nat) {
    Settling(sys, n) ==>
      var after, id := Next(cfg, sys, Advance(n, Proceed)).stores.approvals.approvals, sys.workers[n].kind.approvalId;
      id in after && after[id].exec == A.Failed
  }

  // ---- the run for two calls ----

  // The first call's executor has been entered, once, and the ledger has its row.
  ghost predicate Spent(s: Stores, call: Info) {
    && |s.hist.entries| == 1 && RL.IsSpending(s.hist.entries[0], call)
    && s.ledger.Keys == {1} && s.ledger[1].conversationId == call.conv && s.ledger[1].toolCallId == call.callId
  }

  // The first attempt enters the executor.
  lemma {:induction false} EnterTarget(cfg: Config, states: iset<Sys>, s: Sys, conv: Id, calls: seq<Info>)
      returns (s': Sys)
    requires Closed(cfg, states) && s in states && cfg.audited && Askable(cfg, conv, calls)
      && Resuming(s, conv, calls, 1, 1)
    requires s.stores.ledger == map[] && s.stores.hist.entries == []
    ensures s' in states && Resuming(s', conv, calls, 1, 1) && Spent(s'.stores, calls[0])
      && s'.workers.Keys == s.workers.Keys
  {
    s' := RL.RerunTarget(cfg, states, s, conv, calls, 1, 1);
    var w := s'.workers[1];
    s' := ThenAdvance(cfg, states, s', 1, WriteRow(1));
    assert s'.workers[1] == w.(phase := EnterPhase(w.phase.call, 1)) && s'.stores.ledger.Keys == {1};
    s' := EnterAndClose(cfg, states, s', conv, calls[0], w.(phase := RunPhase));
  }

  lemma {:induction false} EnterAndClose(cfg: Config, states: iset<Sys>, s: Sys, conv: Id, call: Info, w: Worker)
    returns (s': Sys)
    requires Closed(cfg, states) && s in states && cfg.audited && 1 in s.workers && s.stores.hist.entries == []
    requires w.phase.RunPhase? && w.conv == conv == call.conv && s.stores.ledger.Keys == {1}
    requires s.workers[1] ==
        w.(phase := EnterPhase(Call(call.tool, call.args, call.callId, Some(call.approvalId)), 1))
    requires s.stores.ledger[1].conversationId == conv && s.stores.ledger[1].toolCallId == call.callId
    ensures s' in states && s'.workers == s.workers[1 := w] && Spent(s'.stores, call)
    ensures s'.stores.approvals == s.stores.approvals && s'.stores.turns == s.stores.turns
      && s'.stores.now == s.stores.now
    ensures s'.stores.hist.attempts == s.stores.hist.attempts
  {
    s' := ThenAdvance(cfg, states, s, 1, Proceed);
    assert s'.workers[1] == w.(phase := ClosePhase(1)) && s'.stores.ledger == s.stores.ledger;
    s' := ThenAdvance(cfg, states, s', 1, CloseRow("", L.Success, 0, ""));
  }

  // Any later attempt is refused by the ledger.
  lemma {:induction false} RefuseTarget(cfg: Config, states: iset<Sys>, s: Sys, conv: Id, calls: seq<Info>, n: nat,
      k: nat)
    returns (s': Sys)
    requires Closed(cfg, states) && s in states && cfg.audited && Askable(cfg, conv, calls)
      && Resuming(s, conv, calls, n, k)
    requires n > 1 && calls[0].callId != NO_ID && Spent(s.stores, calls[0])
    ensures s' in states && Resuming(s', conv, calls, n, k) && s'.stores == s.stores
      && s'.workers.Keys == s.workers.Keys
  {
    var row := L.Invocation(conv, calls[0].callId, NO_ID, calls[0].args, "", L.InvocationRunning, 0, "");
    assert L.SameCall(row, s.stores.ledger[1]);
    s' := RL.RerunTarget(cfg, states, s, conv, calls, n, k);
    s' := ThenAdvance(cfg, states, s', n, WriteRow(n));
  }

  // The other call is interrupted again, and its checkpoint refused.
  lemma {:induction false} Reraise(cfg: Config, states: iset<Sys>, s: Sys, conv: Id, calls: seq<Info>, n: nat, k: nat)
    returns (s': Sys)
    requires Closed(cfg, states) && s in states && |calls| > 1 && Askable(cfg, conv, calls)
      && Resuming(s, conv, calls, n, k)
    ensures s' in states && s'.stores == s.stores && s'.workers.Keys == s.workers.Keys
    ensures s'.workers[n] == Return(s.workers[n].(raised := [Raised(0, calls[1])]), RetErr)
  {
    DataOfCalls(calls);
    var w := s.workers[n].(raised := [Raised(0, calls[1])]);
    assert 1 in s.workers[n].checkpoint.data && s.workers[n].checkpoint.data[1] == calls[1];
    s' := ThenAdvance(cfg, states, s, n, RerunTool(1, 0));
    assert s'.stores == s.stores && s'.workers[n] == w;
    s' := ThenAdvance(cfg, states, s', n, EndInterrupted);
    assert s'.stores == s.stores && s'.workers[n] == w.(phase := PersistPhase([Raised(0, calls[1])]));
    s' := RefuseCheckpoint(cfg, states, s', conv, calls, n, w);
  }

  lemma {:induction false} RefuseCheckpoint(cfg: Config, states: iset<Sys>, s: Sys, conv: Id, calls: seq<Info>, n: nat,
      w: Worker)
    returns (s': Sys)
    requires Closed(cfg, states) && s in states && |calls| > 1 && n in s.workers
      && AllSaved(s.stores.approvals, conv, calls)
    requires s.workers[n] == w.(phase := PersistPhase([Raised(0, calls[1])]))
    ensures s' in states && s'.stores == s.stores && s'.workers == s.workers[n := Return(w, RetErr)]
  {
    s' := ThenAdvance(cfg, states, s, n, Proceed);
  }

  // The deferred steps: the turn is given back, and the approval fails.
  lemma {:induction false} GiveUp(cfg: Config, states: iset<Sys>, s: Sys, conv: Id, calls: seq<Info>, n: nat, k: nat,
      w: Worker)
    returns (s': Sys)
    requires Closed(cfg, states) && s in states && calls != [] && n in s.workers && s.workers[n] == Return(w, RetErr)
    requires w.kind == Resume(calls[0].approvalId) && w.conv == conv && w.exec == k && !w.finalized
    requires w.releaseStatus == T.AwaitingApproval && T.Holds(s.stores.turns, conv, w.turn)
    requires Attempted(s.stores, conv, calls, k) && A.Holds(s.stores.approvals.approvals[calls[0].approvalId], k)
    ensures s' in states && s'.workers.Keys == s.workers.Keys && FailedAfter(s'.stores, conv, calls, k)
    ensures s'.stores.ledger == s.stores.ledger && s'.stores.hist.entries == s.stores.hist.entries
  {
    s' := ThenAdvance(cfg, states, s, n, Proceed);
    assert s'.stores.approvals == s.stores.approvals && s'.workers[n].phase.ApprovalExit?
      && s'.workers[n].ret == RetErr;
    assert s'.stores.ledger == s.stores.ledger && s'.stores.hist == s.stores.hist && TurnIsFree(s'.stores, conv);
    var turns, now := s'.stores.turns, s'.stores.now;
    s' := ThenAdvance(cfg, states, s', n, Proceed);
    assert s'.stores.turns == turns && s'.stores.now == now && s'.workers[n].phase.SettlePhase?;
    s' := ThenAdvance(cfg, states, s', n, Proceed);
  }

  // The first approval has failed in each of its attempts, and the conversation waits.
  ghost predicate FailedAfter(s: Stores, conv: Id, calls: seq<Info>, attempts: nat)
    requires calls != []
  {
    Attempted(s, conv, calls, attempts) && s.approvals.approvals[calls[0].approvalId].exec == A.Failed
      && TurnIsFree(s, conv)
  }

  lemma {:induction false} FailAttempt(cfg: Config, states: iset<Sys>, s: Sys, conv: Id, calls: seq<Info>, n: nat,
      k: nat)
    returns (s': Sys)
    requires Closed(cfg, states) && s in states && |calls| > 1 && Askable(cfg, conv, calls)
      && Resuming(s, conv, calls, n, k)
    ensures s' in states && s'.workers.Keys == s.workers.Keys && FailedAfter(s'.stores, conv, calls, k)
    ensures s'.stores.ledger == s.stores.ledger && s'.stores.hist.entries == s.stores.hist.entries
  {
    s' := Reraise(cfg, states, s, conv, calls, n, k);
    s' := GiveUp(cfg, states, s', conv, calls, n, k, s.workers[n].(raised := [Raised(0, calls[1])]));
  }

  lemma {:induction false} FailTimes(cfg: Config, states: iset<Sys>, conv: Id, calls: seq<Info>, k: nat)
      returns (s: Sys)
    requires Closed(cfg, states) && INIT in states && cfg.audited && |calls| > 1 && Askable(cfg, conv, calls)
    requires calls[0].callId != NO_ID && 0 < k <= A.MAX_ATTEMPTS
    ensures s in states && FailedAfter(s.stores, conv, calls, k) && Spent(s.stores, calls[0])
    ensures forall m :: m in s.workers ==> m <= k
    decreases k
  {
    if k == 1 {
      s := ReachResuming(cfg, states, conv, calls);
      s := EnterTarget(cfg, states, s, conv, calls);
    } else {
      s := FailTimes(cfg, states, conv, calls, k - 1);
      s := StartResuming(cfg, states, s, conv, calls, k, k - 1);
      s := RefuseTarget(cfg, states, s, conv, calls, k, k);
    }
    s := FailAttempt(cfg, states, s, conv, calls, k, k);
  }

  /**
   Two sensitive calls of one run, both approved: resuming the first of them enters its executor once and fails in
   each of its five attempts, after which the approval can never be begun again.
   */
  lemma {:induction false} TwoCallsNeverComplete(cfg: Config, first: Info, second: Info) returns (acts: seq<Action>)
    requires cfg.audited && Askable(cfg, first.conv, [first, second]) && first.callId != NO_ID
    ensures
      var s := Run(cfg, INIT, acts).stores;
      && Spent(s, first) && first.approvalId in s.approvals.approvals
      && s.approvals.approvals[first.approvalId].status == A.Approved
      && s.approvals.approvals[first.approvalId].exec == A.Failed
      && forall now: int :: !A.Startable(s.approvals, first.approvalId, now)
  {
    ReachableIsClosed(cfg);
    var s := FailTimes(cfg, Reachable(cfg), first.conv, [first, second], A.MAX_ATTEMPTS);
    assert Reaches(cfg, s);
    acts :| Run(cfg, INIT, acts) == s;
  }
}
