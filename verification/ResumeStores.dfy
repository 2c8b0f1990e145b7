/** The stores under the approval-resume protocol: each action makes at most one call on each of them. */
module ResumeStores {
  import opened Prelude
  import A = Approvals
  import AR = ApprovalRuns
  import T = Turns
  import TR = TurnRuns
  import L = ToolLedger
  import opened ResumeProtocol
  import opened ResumeInvariant

  // What a step changes in the stores, and that it may.
  ghost predicate Fine(s: Stores, s': Stores) {
    StoresOk(s') && Grows(s, s')
  }

  lemma {:induction false} ApprovalCall(s: A.Store<Payload>, s': A.Store<Payload>, op: AR.Op<Payload>, now: int)
    requires AR.Inv(s) && AR.Legal(s, op) && s' == AR.Step(s, AR.Event(op, now)).0
    ensures AR.Inv(s') && ApprovalsGrow(s, s')
  {
    AR.StepKeepsInv(s, AR.Event(op, now));
    forall id | id in s.approvals
      ensures id in s'.approvals && SameAsk(s.approvals[id], s'.approvals[id])
    {
      assert AR.RecordOk(s.approvals[id], s.issued);
    }
  }

  // A step that touches the approvals only.
  lemma {:induction false} ApprovalsChangeIsFine(s: Stores, s': Stores)
    requires StoresOk(s) && AR.Inv(s'.approvals) && ApprovalsGrow(s.approvals, s'.approvals)
    requires s'.turns == s.turns && s'.ledger == s.ledger
    requires HistoryGrows(s.hist, s'.hist) && s'.hist.rowOwner == s.hist.rowOwner
    requires forall t :: t in s'.hist.attempts ==> t in s.hist.attempts || A.NO_TOKEN < t <= s'.approvals.issued
    requires forall id :: id in s'.hist.asked ==> id in s.hist.asked || id in s'.approvals.approvals
    ensures Fine(s, s')
  {
  }

  // A step that touches the turns only.
  lemma {:induction false} TurnsChangeIsFine(s: Stores, s': Stores)
    requires StoresOk(s) && TR.Inv(s'.turns)
    requires s'.approvals == s.approvals && s'.ledger == s.ledger
    requires s'.hist == s.hist || exists c :: s'.hist == s.hist.(commits := s.hist.commits + [c])
    ensures Fine(s, s')
  {
  }

  lemma {:induction false} NothingIsFine(s: Stores)
    requires StoresOk(s)
    ensures Fine(s, s)
  {
  }

  lemma {:induction false} BeginIsFine(s: Stores, s': Stores, n: nat, w: Worker)
    requires StoresOk(s) && w.kind.Resume? && s' == StepBegin(s, n, w).0
    ensures Fine(s, s')
  {
    ApprovalCall(s.approvals, A.BeginExecution(s.approvals, w.kind.approvalId, w.conv, s.now).0,
      AR.Begin(w.kind.approvalId, w.conv), s.now);
    ApprovalsChangeIsFine(s, s');
  }

  lemma {:induction false} ClaimIsFine(s: Stores, s': Stores, w: Worker)
    requires StoresOk(s) && s' == StepClaim(s, w).0
    ensures Fine(s, s')
  {
    TR.StepKeepsInv(s.turns, TR.DoClaim(w.conv, w.kind.Resume?, s.now));
    TurnsChangeIsFine(s, s');
  }

  lemma {:induction false} RunIsFine(cfg: Config, s: Stores, s': Stores, w: Worker, c: Choice)
    requires StoresOk(s) && s' == StepRun(cfg, s, w, c).0
    ensures Fine(s, s')
  {
    if s' == s {
      NothingIsFine(s);
    } else {
      ApprovalCall(s.approvals, s'.approvals, AR.Create(c.approvalId, c.workspaceId, w.conv, c.tool, c.args), s.now);
      ApprovalsChangeIsFine(s, s');
    }
  }

  lemma {:induction false} LedgerIsFine(cfg: Config, s: Stores, s': Stores, n: nat, w: Worker, call: Call, inv: Id)
    requires StoresOk(s) && s' == StepLedger(cfg, s, n, w, call, inv).0
    ensures Fine(s, s')
  {
    if s' == s {
      NothingIsFine(s);
    } else {
      var row := L.Invocation(w.conv, call.callId, NO_ID, call.args, "", L.InvocationRunning, 0, "");
      L.CreateKeepsCalls(s.ledger, inv, row);
      assert s'.ledger == L.CreateInvocation(s.ledger, inv, row).0 && inv !in s.ledger;
      assert s'.hist == s.hist.(rowOwner := s.hist.rowOwner[inv := n]);
    }
  }

  lemma {:induction false} EnterIsFine(s: Stores, s': Stores, w: Worker, call: Call, inv: Id)
    requires StoresOk(s) && s' == StepEnter(s, w, call, inv).0
    ensures Fine(s, s')
  {
  }

  lemma {:induction false} CloseIsFine(cfg: Config, s: Stores, s': Stores, w: Worker, inv: Id, c: Choice)
    requires StoresOk(s) && s' == StepClose(cfg, s, w, inv, c).0
    ensures Fine(s, s')
  {
    if s' == s {
      NothingIsFine(s);
    } else {
      L.CompleteKeepsCalls(s.ledger, inv, c.result, c.status, c.latencyMS, c.error);
    }
  }

  lemma {:induction false} PersistIsFine(s: Stores, s': Stores, w: Worker, todo: seq<Raised>, skip: bool)
    requires StoresOk(s) && s' == StepPersist(s, w, todo, skip).0
    ensures Fine(s, s')
  {
    if s' == s {
      NothingIsFine(s);
    } else {
      var payload := Payload(todo[0].interruptId, DataOf(w.raised));
      ApprovalCall(s.approvals, s'.approvals, AR.Save(todo[0].info.approvalId, w.conv, payload), s.now);
      ApprovalsChangeIsFine(s, s');
    }
  }

  lemma {:induction false} CommitIsFine(s: Stores, s': Stores, w: Worker, batch: seq<T.Message>, next: T.ConvStatus)
    requires StoresOk(s) && next != T.Running && s' == StepCommit(s, w, batch, next).0
    ensures Fine(s, s')
  {
    TR.StepKeepsInv(s.turns, TR.DoCommit(w.conv, w.turn, AllPresent(batch), next));
    TurnsChangeIsFine(s, s');
  }

  lemma {:induction false} TurnExitIsFine(s: Stores, s': Stores, w: Worker)
    requires StoresOk(s) && w.releaseStatus != T.Running && s' == StepTurnExit(s, w).0
    ensures Fine(s, s')
  {
    TR.StepKeepsInv(s.turns, TR.DoCommit(w.conv, w.turn, [], w.releaseStatus));
    TurnsChangeIsFine(s, s');
  }

  lemma {:induction false} SettleIsFine(s: Stores, s': Stores, w: Worker)
    requires StoresOk(s) && w.kind.Resume? && s' == StepSettle(s, w)
    ensures Fine(s, s')
  {
    if s' == s {
      NothingIsFine(s);
    } else if w.ret == RetErr {
      ApprovalCall(s.approvals, s'.approvals, AR.Fail(w.kind.approvalId, w.exec, ""), s.now);
      ApprovalsChangeIsFine(s, s');
    } else {
      ApprovalCall(s.approvals, s'.approvals, AR.Complete(w.kind.approvalId, w.exec), s.now);
      ApprovalsChangeIsFine(s, s');
    }
  }

  lemma {:induction false} DecideIsFine(s: Stores, s': Stores, id: Id, workspaceId: Id, verdict: A.Status, approver: Id,
      frees: bool)
    requires StoresOk(s) && s' == StepDecide(s, id, workspaceId, verdict, approver, frees)
    ensures Fine(s, s')
  {
    if s' == s {
      NothingIsFine(s);
    } else {
      var resolved := s.(approvals := s'.approvals);
      ApprovalCall(s.approvals, s'.approvals, AR.Resolve(id, workspaceId, verdict, approver), s.now);
      ApprovalsChangeIsFine(s, resolved);
      TurnsChangeIsFine(resolved, s');
    }
  }

  lemma {:induction false} BeatApprovalIsFine(s: Stores, s': Stores, w: Worker)
    requires StoresOk(s) && s' == StepBeatApproval(s, w).0
    ensures Fine(s, s')
  {
    if s' == s {
      NothingIsFine(s);
    } else {
      ApprovalCall(s.approvals, s'.approvals, AR.Renew(w.kind.approvalId, w.exec), s.now);
      ApprovalsChangeIsFine(s, s');
    }
  }

  lemma {:induction false} BeatTurnIsFine(s: Stores, s': Stores, w: Worker)
    requires StoresOk(s) && s' == StepBeatTurn(s, w).0
    ensures Fine(s, s')
  {
    TR.StepKeepsInv(s.turns, TR.DoRenew(w.conv, w.turn, s.now));
    TurnsChangeIsFine(s, s');
  }

  lemma {:induction false} WorkerStepIsFine(cfg: Config, s: Stores, s': Stores, n: nat, w: Worker, c: Choice)
    requires StoresOk(s) && PhaseOk(cfg, s, n, w) && s' == StepWorker(cfg, s, n, w, c).0
    ensures Fine(s, s')
  {
    if s' == s {
      NothingIsFine(s);
    } else {
      match w.phase
      case BeginPhase => BeginIsFine(s, s', n, w);
      case ClaimPhase => ClaimIsFine(s, s', w);
      case RunPhase => RunIsFine(cfg, s, s', w, c);
      case LedgerPhase(call) => LedgerIsFine(cfg, s, s', n, w, call, c.inv);
      case EnterPhase(call, inv) => EnterIsFine(s, s', w, call, inv);
      case ClosePhase(inv) => CloseIsFine(cfg, s, s', w, inv, c);
      case PersistPhase(todo) => PersistIsFine(s, s', w, todo, c.Skip?);
      case CommitPhase(batch, next) => CommitIsFine(s, s', w, batch, next);
      case TurnExit => TurnExitIsFine(s, s', w);
      case SettlePhase => SettleIsFine(s, s', w);
    }
  }

  lemma {:induction false} StumbleIsFine(cfg: Config, s: Stores, s': Stores, n: nat, w: Worker, c: Choice, effect: bool)
    requires StoresOk(s) && PhaseOk(cfg, s, n, w) && s' == StepStumble(cfg, s, n, w, c, effect).0
    ensures Fine(s, s')
  {
    if effect && CallsStore(w) {
      WorkerStepIsFine(cfg, s, s', n, w, c);
    } else {
      NothingIsFine(s);
    }
  }

  lemma {:induction false} MissIsFine(s: Stores, s': Stores, w: Worker)
    requires StoresOk(s) && (s' == s || s' == StepBeatApproval(s, w).0 || s' == StepBeatTurn(s, w).0)
    ensures Fine(s, s')
  {
    if s' == s {
      NothingIsFine(s);
    } else if s' == StepBeatApproval(s, w).0 {
      BeatApprovalIsFine(s, s', w);
    } else {
      BeatTurnIsFine(s, s', w);
    }
  }

  lemma {:induction false} ActorIsFine(cfg: Config, s: Stores, s': Stores, n: nat, w: Worker, a: Action)
    requires StoresOk(s) && PhaseOk(cfg, s, n, w) && s' == StepActor(cfg, s, n, w, a).0
    ensures Fine(s, s')
  {
    match a
    case Advance(_, c) => WorkerStepIsFine(cfg, s, s', n, w, c);
    case Stumble(_, c, effect) => StumbleIsFine(cfg, s, s', n, w, c, effect);
    case BeatApproval(_) => BeatApprovalIsFine(s, s', w);
    case BeatTurn(_) => BeatTurnIsFine(s, s', w);
    case MissApproval(_, _) => MissIsFine(s, s', w);
    case MissTurn(_, _) => MissIsFine(s, s', w);
    case _ => NothingIsFine(s);
  }

  lemma {:induction false} WorldIsFine(s: Stores, s': Stores, a: Action)
    requires StoresOk(s) && s' == StepWorld(s, a)
    ensures Fine(s, s')
  {
    match a
    case NewConversation(conv) =>
      if conv != NO_ID && conv !in s.turns.status {
        TR.StepKeepsInv(s.turns, TR.DoCreate(conv));
      }
      TurnsChangeIsFine(s, s');
    case Decide(id, workspaceId, verdict, approver, frees) =>
      DecideIsFine(s, s', id, workspaceId, verdict, approver, frees);
    case _ => TurnsChangeIsFine(s, s');
  }
}
