/**
 When an attempt fails its approval: exactly if its turn was not finalized, or a heartbeat was lost in a run
 that ended in an answer.  So an approval may be failed, and tried again, although its turn was committed.
 */
module ResumeVerdict {
  import opened Prelude
  import A = Approvals
  import T = Turns
  import opened ResumeProtocol
  import opened ResumeInvariant
  import RS = ResumeSafety
  import RT = ResumeAttempts

  // The result a commit for this status gives the body.
  function Outcome(next: T.ConvStatus): Ret {
    if next == T.AwaitingApproval then RetAwait else RetNil
  }

  // A lost heartbeat turns an answer into an error, and nothing else.
  function Judged(ret: Ret, lost: bool): Ret {
    if lost && ret == RetNil then RetErr else ret
  }

  // Whether a heartbeat was lost, of those that have been stopped where the worker stands.
  predicate LostSoFar(w: Worker) {
    match w.phase
    case ApprovalExit => w.turnBeat == Lost
    case SettlePhase => w.turnBeat == Lost || w.approvalBeat == Lost
    case _ => false
  }

  ghost predicate CommittedFor(commits: seq<Committed>, w: Worker, next: T.ConvStatus) {
    exists i :: 0 <= i < |commits|
      && commits[i].attempt == Some(w.exec) && commits[i].conv == w.conv && commits[i].next == next
  }

  ghost predicate JudgedOk(commits: seq<Committed>, w: Worker) {
    if w.finalized then exists next :: CommittedFor(commits, w, next) && w.ret == Judged(Outcome(next), LostSoFar(w))
    else w.ret == RetErr
  }

  ghost predicate VerdictOk(commits: seq<Committed>, w: Worker) {
    w.kind.Resume? ==>
      match w.phase
      case TurnExit => JudgedOk(commits, w)
      case ApprovalExit => w.turnBeat != Beating && JudgedOk(commits, w)
      case SettlePhase => w.turnBeat != Beating && w.approvalBeat != Beating && JudgedOk(commits, w)
      case BeginPhase => !w.finalized && w.turnBeat == Off
      case ClaimPhase => !w.finalized && w.turnBeat == Off
      case Gone => true
      case _ => !w.finalized
  }

  ghost predicate VerdictsOk(sys: Sys) {
    forall n :: n in sys.workers ==> VerdictOk(sys.stores.hist.commits, sys.workers[n])
  }

  lemma {:induction false} CommittedStays(before: seq<Committed>, after: seq<Committed>, w: Worker, w': Worker)
    requires before <= after && w'.exec == w.exec && w'.conv == w.conv
    ensures forall next :: CommittedFor(before, w, next) ==> CommittedFor(after, w', next)
  {
    forall next | CommittedFor(before, w, next)
      ensures CommittedFor(after, w', next)
    {
      var i :| 0 <= i < |before| && before[i].attempt == Some(w.exec) && before[i].conv == w.conv
        && before[i].next == next;
      assert after[i] == before[i];
    }
  }

  // A worker nobody moved.
  lemma {:induction false} VerdictStays(before: seq<Committed>, after: seq<Committed>, w: Worker)
    requires before <= after && VerdictOk(before, w)
    ensures VerdictOk(after, w)
  {
    CommittedStays(before, after, w, w);
  }

  // A worker that moves on with the same result, but for a heartbeat it stops.
  lemma {:induction false} JudgementStays(before: seq<Committed>, after: seq<Committed>, w: Worker, w': Worker)
    requires before <= after && w'.exec == w.exec && w'.conv == w.conv && w'.finalized == w.finalized
    requires JudgedOk(before, w) && LostSoFar(w') == (LostSoFar(w) || LostSoFar(w'))
      && w'.ret == Judged(w.ret, LostSoFar(w'))
    ensures JudgedOk(after, w')
  {
    CommittedStays(before, after, w, w');
    if w.finalized {
      var next :| CommittedFor(before, w, next) && w.ret == Judged(Outcome(next), LostSoFar(w));
      assert CommittedFor(after, w', next) && w'.ret == Judged(Outcome(next), LostSoFar(w'));
    }
  }

  lemma {:induction false} ExitKeepsVerdict(s: Stores, s': Stores, w: Worker, w': Worker)
    requires VerdictOk(s.hist.commits, w) && s.hist.commits <= s'.hist.commits && w.kind.Resume?
    requires (w.phase.TurnExit? && w' == LeaveTurn(w)) || (w.phase.ApprovalExit? && w' == StepApprovalExit(w))
    ensures VerdictOk(s'.hist.commits, w')
  {
    JudgementStays(s.hist.commits, s'.hist.commits, w, w');
  }

  lemma {:induction false} CommitKeepsVerdict(s: Stores, s': Stores, w: Worker, w': Worker)
    requires w.phase.CommitPhase? && w.kind.Resume? && !w.finalized
    requires (s', w') == StepCommit(s, w, w.phase.batch, w.phase.next)
    ensures VerdictOk(s'.hist.commits, w')
  {
    if w'.finalized {
      var i := |s.hist.commits|;
      assert s'.hist.commits[i].attempt == Some(w.exec) && s'.hist.commits[i].next == w.phase.next;
      assert CommittedFor(s'.hist.commits, w', w.phase.next);
    }
  }

  // The steps before the commit, which finalize nothing.
  lemma {:induction false} EarlyStepKeepsVerdict(cfg: Config, s: Stores, n: nat, w: Worker, w': Worker, c: Choice,
      commits: seq<Committed>)
    requires VerdictOk(s.hist.commits, w) && w' == StepWorker(cfg, s, n, w, c).1 && w.kind.Resume?
    requires !w.phase.CommitPhase? && !w.phase.TurnExit? && !w.phase.ApprovalExit? && !w.phase.SettlePhase?
      && !w.phase.Gone?
    ensures VerdictOk(commits, w')
  {
    assert !w.finalized;
    assert !w'.finalized && w'.kind == w.kind;
  }

  lemma {:induction false} AdvanceKeepsVerdict(cfg: Config, s: Stores, s': Stores, n: nat, w: Worker, w': Worker,
      c: Choice)
    requires VerdictOk(s.hist.commits, w) && s.hist.commits <= s'.hist.commits
    requires (s', w') == StepWorker(cfg, s, n, w, c) && w.kind.Resume?
    ensures VerdictOk(s'.hist.commits, w')
  {
    if w.phase.CommitPhase? {
      CommitKeepsVerdict(s, s', w, w');
    } else if w.phase.TurnExit? || w.phase.ApprovalExit? {
      ExitKeepsVerdict(s, s', w, w');
    } else if !w.phase.SettlePhase? && !w.phase.Gone? {
      EarlyStepKeepsVerdict(cfg, s, n, w, w', c, s'.hist.commits);
    }
  }

  // A call that reports an error ends the body with an error, except for the release, which is ignored.
  lemma {:induction false} ErrorKeepsVerdict(before: seq<Committed>, after: seq<Committed>, w: Worker)
    requires VerdictOk(before, w) && before <= after && w.kind.Resume? && CallsStore(w)
    ensures VerdictOk(after, AfterError(w))
  {
    if w.phase.TurnExit? {
      JudgementStays(before, after, w, LeaveTurn(w));
    }
  }

  // Heartbeats are lost only while they beat, so never after their exit has judged them.
  lemma {:induction false} HeartbeatKeepsVerdict(s: Stores, s': Stores, w: Worker, w': Worker)
    requires VerdictOk(s.hist.commits, w) && s.hist.commits <= s'.hist.commits
    requires w' == w || (w.approvalBeat == Beating && w' == w.(approvalBeat := Lost))
      || (w.turnBeat == Beating && w' == w.(turnBeat := Lost))
    ensures VerdictOk(s'.hist.commits, w')
  {
    VerdictStays(s.hist.commits, s'.hist.commits, w);
    CommittedStays(s'.hist.commits, s'.hist.commits, w, w');
  }

  lemma {:induction false} ActorKeepsVerdict(cfg: Config, s: Stores, s': Stores, n: nat, w: Worker, w': Worker,
      a: Action)
    requires VerdictOk(s.hist.commits, w) && s.hist.commits <= s'.hist.commits
    requires (s', w') == StepActor(cfg, s, n, w, a)
    ensures VerdictOk(s'.hist.commits, w')
  {
    if w.kind.Resume? {
      match a
      case Advance(_, c) => AdvanceKeepsVerdict(cfg, s, s', n, w, w', c);
      case Stumble(_, _, _) =>
        VerdictStays(s.hist.commits, s'.hist.commits, w);
        if CallsStore(w) { ErrorKeepsVerdict(s.hist.commits, s'.hist.commits, w); }
      case Crash(_) =>
      case _ => HeartbeatKeepsVerdict(s, s', w, w');
    }
  }

  lemma {:induction false} NextKeepsVerdict(cfg: Config, sys: Sys, a: Action, n: nat)
    requires VerdictsOk(sys) && sys.stores.hist.commits <= Next(cfg, sys, a).stores.hist.commits
      && n in Next(cfg, sys, a).workers
    ensures VerdictOk(Next(cfg, sys, a).stores.hist.commits, Next(cfg, sys, a).workers[n])
  {
    var sys' := Next(cfg, sys, a);
    if n in sys.workers {
      if OfActor(a) && a.worker == n {
        ActorKeepsVerdict(cfg, sys.stores, sys'.stores, n, sys.workers[n], sys'.workers[n], a);
      } else {
        VerdictStays(sys.stores.hist.commits, sys'.stores.hist.commits, sys.workers[n]);
      }
    }
  }

  lemma {:induction false} NextKeepsVerdicts(cfg: Config, sys: Sys, a: Action)
    requires Inv(cfg, sys) && VerdictsOk(sys)
    ensures VerdictsOk(Next(cfg, sys, a))
  {
    RS.NextKeepsInv(cfg, sys, a);
    forall n | n in Next(cfg, sys, a).workers
      ensures VerdictOk(Next(cfg, sys, a).stores.hist.commits, Next(cfg, sys, a).workers[n])
    {
      NextKeepsVerdict(cfg, sys, a, n);
    }
  }

  lemma {:induction false} RunKeepsVerdicts(cfg: Config, sys: Sys, acts: seq<Action>)
    requires Inv(cfg, sys) && VerdictsOk(sys)
    ensures VerdictsOk(Run(cfg, sys, acts))
    decreases |acts|
  {
    if acts != [] {
      RS.NextKeepsInv(cfg, sys, acts[0]);
      NextKeepsVerdicts(cfg, sys, acts[0]);
      RunKeepsVerdicts(cfg, Next(cfg, sys, acts[0]), acts[1..]);
    }
  }

  // The attempt's turn ended in an answer, not in another interrupt.
  ghost predicate AnsweredBy(commits: seq<Committed>, w: Worker) {
    exists next :: CommittedFor(commits, w, next) && next != T.AwaitingApproval
  }

  // By the time the approval is settled: when its turn was not finalized, or a lost heartbeat overruled an answer.
  ghost predicate EndsFailed(commits: seq<Committed>, w: Worker) {
    !w.finalized || (AnsweredBy(commits, w) && (w.turnBeat == Lost || w.approvalBeat == Lost))
  }

  lemma {:induction false} OneStatus(cfg: Config, acts: seq<Action>, w: Worker, next: T.ConvStatus, other: T.ConvStatus)
    requires CommittedFor(Run(cfg, INIT, acts).stores.hist.commits, w, next)
    requires CommittedFor(Run(cfg, INIT, acts).stores.hist.commits, w, other)
    ensures next == other
  {
    var cs := Run(cfg, INIT, acts).stores.hist.commits;
    var i :| 0 <= i < |cs| && cs[i].attempt == Some(w.exec) && cs[i].conv == w.conv && cs[i].next == next;
    var j :| 0 <= j < |cs| && cs[j].attempt == Some(w.exec) && cs[j].conv == w.conv && cs[j].next == other;
    if i < j {
      RT.AttemptsCommitOnce(cfg, acts, i, j);
    } else if j < i {
      RT.AttemptsCommitOnce(cfg, acts, j, i);
    }
  }

  // What the worker is about to report to the approval is its verdict.
  lemma {:induction false} ReportIsVerdict(cfg: Config, acts: seq<Action>, w: Worker)
    requires w.phase.SettlePhase? && w.kind.Resume? && VerdictOk(Run(cfg, INIT, acts).stores.hist.commits, w)
    ensures w.ret == RetErr <==> EndsFailed(Run(cfg, INIT, acts).stores.hist.commits, w)
  {
    var commits := Run(cfg, INIT, acts).stores.hist.commits;
    if w.finalized {
      var next :| CommittedFor(commits, w, next) && w.ret == Judged(Outcome(next), LostSoFar(w));
      if next == T.AwaitingApproval && AnsweredBy(commits, w) {
        var other :| CommittedFor(commits, w, other) && other != T.AwaitingApproval;
        OneStatus(cfg, acts, w, next, other);
      }
    }
  }

  lemma {:induction false} SettleReports(cfg: Config, sys: Sys, n: nat, w: Worker)
    requires n in sys.workers && w == sys.workers[n] && w.phase.SettlePhase? && w.kind.Resume?
    requires w.kind.approvalId in sys.stores.approvals.approvals
      && A.Holds(sys.stores.approvals.approvals[w.kind.approvalId], w.exec)
    ensures w.kind.approvalId in Next(cfg, sys, Advance(n, Proceed)).stores.approvals.approvals
    ensures Next(cfg, sys, Advance(n, Proceed)).stores.approvals.approvals[w.kind.approvalId].exec ==
        if w.ret == RetErr then A.Failed else A.Completed
  {
  }

  /**
   An attempt that settles its approval marks it failed exactly if its turn was not finalized, or a heartbeat
   was lost in a turn that ended in an answer; otherwise it marks it completed.
   */
  lemma {:induction false} SettlesFailedIff(cfg: Config, acts: seq<Action>, n: nat, w: Worker, s': Stores)
    requires n in Run(cfg, INIT, acts).workers && w == Run(cfg, INIT, acts).workers[n]
      && w.phase.SettlePhase? && w.kind.Resume?
    requires w.kind.approvalId in Run(cfg, INIT, acts).stores.approvals.approvals
    requires A.Holds(Run(cfg, INIT, acts).stores.approvals.approvals[w.kind.approvalId], w.exec)
    requires s' == Run(cfg, INIT, acts + [Advance(n, Proceed)]).stores
    ensures w.kind.approvalId in s'.approvals.approvals
    ensures s'.approvals.approvals[w.kind.approvalId].exec ==
        if EndsFailed(Run(cfg, INIT, acts).stores.hist.commits, w) then A.Failed else A.Completed
  {
    RunKeepsVerdicts(cfg, INIT, acts);
    ReportIsVerdict(cfg, acts, w);
    SettleReports(cfg, Run(cfg, INIT, acts), n, w);
    RunOneMore(cfg, INIT, acts, Advance(n, Proceed));
  }
}
