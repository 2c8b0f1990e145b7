/** The workers of the approval-resume protocol: every action keeps what holds of each of them. */
module ResumeWorkers {
  import opened Prelude
  import A = Approvals
  import T = Turns
  import opened ResumeProtocol
  import opened ResumeInvariant

  // The actor of a step that changes neither its token, its checkpoint nor its interrupts.
  lemma {:induction false} MoveKeepsActor(cfg: Config, s: Stores, s': Stores, n: nat, w: Worker, w': Worker)
    requires Grows(s, s') && BaseOk(s, n, w)
    requires w'.kind == w.kind && w'.conv == w.conv && w'.exec == w.exec && w'.checkpoint == w.checkpoint
        && w'.raised == w.raised
    requires PhaseOk(cfg, s', n, w')
    ensures WorkerOk(cfg, s', n, w')
  {
    GrowthKeepsBase(s, s', n, w, w');
  }

  // Program counters that promise nothing about the stores.
  predicate Plain(w: Worker) {
    && w.releaseStatus != T.Running
    && (w.kind.Resume? ==> w.phase.Gone? || w.exec != A.NO_TOKEN)
    && (w.phase.ClaimPhase? || w.phase.LoadPhase? || w.phase.RunPhase? || w.phase.ClosePhase? || w.phase.Gone?
        || (w.phase.CommitPhase? && w.phase.next != T.Running)
        || (w.phase.TurnExit? && w.ret == RetErr)
        || (w.phase.ApprovalExit? && w.kind.Resume? && w.ret == RetErr))
  }

  lemma {:induction false} PlainKeepsActor(cfg: Config, s: Stores, s': Stores, n: nat, w: Worker, w': Worker)
    requires Grows(s, s') && BaseOk(s, n, w) && Plain(w')
    requires w'.kind == w.kind && w'.conv == w.conv && w'.exec == w.exec && w'.checkpoint == w.checkpoint
        && w'.raised == w.raised
    ensures WorkerOk(cfg, s', n, w')
  {
    MoveKeepsActor(cfg, s, s', n, w, w');
  }

  lemma {:induction false} BeginKeepsActor(cfg: Config, s: Stores, s': Stores, n: nat, w: Worker, w': Worker)
    requires WorkerOk(cfg, s, n, w) && w.phase.BeginPhase? && w.kind.Resume?
    requires (s', w') == StepBegin(s, n, w) && Grows(s, s')
    ensures WorkerOk(cfg, s', n, w')
  {
    GrowthKeepsBase(s, s', n, w.(exec := A.NO_TOKEN), w'.(exec := A.NO_TOKEN));
    assert w'.phase.Gone? || w'.phase.ClaimPhase?;
  }

  lemma {:induction false} ClaimKeepsActor(cfg: Config, s: Stores, s': Stores, n: nat, w: Worker, w': Worker)
    requires WorkerOk(cfg, s, n, w) && w.phase.ClaimPhase?
    requires (s', w') == StepClaim(s, w) && Grows(s, s')
    ensures WorkerOk(cfg, s', n, w')
  {
    assert Plain(w');
    PlainKeepsActor(cfg, s, s', n, w, w');
  }

  lemma {:induction false} LoadKeepsActor(cfg: Config, s: Stores, n: nat, w: Worker, w': Worker)
    requires CheckpointsOk(s) && WorkerOk(cfg, s, n, w) && w.phase.LoadPhase? && w' == StepLoad(s, w)
    ensures WorkerOk(cfg, s, n, w')
  {
    assert Grows(s, s);
    if w'.checkpoint == w.checkpoint {
      assert Plain(w');
      PlainKeepsActor(cfg, s, s, n, w, w');
    } else {
      var saved := s.approvals.checkpoints[w.kind.approvalId];
      assert w' == w.(phase := RunPhase, checkpoint := saved.state) && saved.conversationId == w.conv;
      assert PayloadOk(s, w.conv, w.kind.approvalId, saved.state);
    }
  }

  // One more interrupt.
  lemma {:induction false} RaiseKeepsActor(cfg: Config, s: Stores, s': Stores, n: nat, w: Worker, r: Raised)
    requires Grows(s, s') && WorkerOk(cfg, s, n, w) && w.phase.RunPhase? && InfoOk(s', w.conv, r.info)
    requires r.interruptId !in DataOf(w.raised)
    ensures WorkerOk(cfg, s', n, w.(raised := w.raised + [r]))
  {
    GrowthKeepsBase(s, s', n, w, w);
    var w' := w.(raised := w.raised + [r]);
    forall i | 0 <= i < |w.raised|
      ensures w.raised[i].interruptId != r.interruptId
    {
      DataOfHasAll(w.raised, i);
    }
    forall i | 0 <= i < |w'.raised|
      ensures InfoOk(s', w.conv, w'.raised[i].info)
    {
      assert i < |w.raised| ==> w'.raised[i] == w.raised[i];
    }
  }

  lemma {:induction false} CallKeepsActor(cfg: Config, s: Stores, s': Stores, n: nat, w: Worker, w': Worker, c: Choice)
    requires WorkerOk(cfg, s, n, w) && w.phase.RunPhase? && c.CallTool?
    requires (s', w') == StepCall(cfg, s, w, c) && Grows(s, s')
    ensures WorkerOk(cfg, s', n, w')
  {
    if w'.raised == w.raised {
      assert w' == w || w'.phase == LedgerPhase(Call(c.tool, c.args, c.callId, None));
      MoveKeepsActor(cfg, s, s', n, w, w');
    } else {
      RaiseKeepsActor(cfg, s, s', n, w, Raised(c.interruptId, Info(c.approvalId, w.conv, c.tool, c.args, c.callId)));
    }
  }

  lemma {:induction false} RerunKeepsActor(cfg: Config, s: Stores, n: nat, w: Worker, w': Worker, c: Choice)
    requires WorkerOk(cfg, s, n, w) && w.phase.RunPhase? && c.RerunTool? && w' == StepRerun(w, c)
    ensures WorkerOk(cfg, s, n, w')
  {
    assert Grows(s, s);
    if w' != w {
      var info := w.checkpoint.data[c.stored];
      assert InfoOk(s, w.conv, info);
      if c.stored == w.checkpoint.interruptId {
        assert w' == w.(phase := LedgerPhase(Call(info.tool, info.args, info.callId, Some(w.kind.approvalId))));
      } else {
        RaiseKeepsActor(cfg, s, s, n, w, Raised(c.interruptId, info));
      }
    }
  }

  lemma {:induction false} EndKeepsActor(cfg: Config, s: Stores, n: nat, w: Worker, w': Worker, c: Choice)
    requires WorkerOk(cfg, s, n, w) && w.phase.RunPhase? && w' == StepEnd(w, c)
    ensures WorkerOk(cfg, s, n, w')
  {
    assert Grows(s, s);
    if !w'.phase.PersistPhase? {
      assert Plain(w');
      PlainKeepsActor(cfg, s, s, n, w, w');
    }
  }

  lemma {:induction false} RunKeepsActor(cfg: Config, s: Stores, s': Stores, n: nat, w: Worker, w': Worker, c: Choice)
    requires WorkerOk(cfg, s, n, w) && w.phase.RunPhase?
    requires (s', w') == StepRun(cfg, s, w, c) && Grows(s, s')
    ensures WorkerOk(cfg, s', n, w')
  {
    if c.CallTool? {
      CallKeepsActor(cfg, s, s', n, w, w', c);
    } else if c.RerunTool? {
      RerunKeepsActor(cfg, s, n, w, w', c);
    } else {
      EndKeepsActor(cfg, s, n, w, w', c);
    }
  }

  // A row just written is the worker's own, and no executor was entered under it.
  lemma {:induction false} NewRowIsFresh(cfg: Config, s: Stores, s': Stores, n: nat, w: Worker, w': Worker, inv: Id)
    requires cfg.audited && EntriesOk(cfg, s) && w.phase.LedgerPhase?
    requires (s', w') == StepLedger(cfg, s, n, w, w.phase.call, inv) && w'.phase.EnterPhase?
    ensures w' == w.(phase := EnterPhase(w.phase.call, inv)) && RowOk(cfg, s', n, w.conv, w.phase.call, inv)
  {
    forall i | 0 <= i < |s.hist.entries|
      ensures s.hist.entries[i].inv != inv
    {
      assert EntryOk(cfg, s, s.hist.entries[i]);
    }
  }

  lemma {:induction false} LedgerKeepsActor(cfg: Config, s: Stores, s': Stores, n: nat, w: Worker, w': Worker, inv: Id)
    requires EntriesOk(cfg, s) && WorkerOk(cfg, s, n, w) && w.phase.LedgerPhase?
    requires (s', w') == StepLedger(cfg, s, n, w, w.phase.call, inv) && Grows(s, s')
    ensures WorkerOk(cfg, s', n, w')
  {
    GrowthKeepsCall(cfg, s, s', w.conv, w.phase.call);
    if !cfg.audited {
      assert w' == w.(phase := EnterPhase(w.phase.call, NO_ID));
    } else if w'.phase.EnterPhase? {
      NewRowIsFresh(cfg, s, s', n, w, w', inv);
    } else {
      assert w' == w || w' == w.(phase := RunPhase);
    }
    MoveKeepsActor(cfg, s, s', n, w, w');
  }

  lemma {:induction false} PersistKeepsActor(cfg: Config, s: Stores, s': Stores, n: nat, w: Worker, w': Worker,
      skip: bool)
    requires WorkerOk(cfg, s, n, w) && w.phase.PersistPhase?
    requires (s', w') == StepPersist(s, w, w.phase.todo, skip) && Grows(s, s')
    ensures WorkerOk(cfg, s', n, w')
  {
    var todo := w.phase.todo;
    if w'.phase.PersistPhase? {
      assert w' == w.(phase := PersistPhase(todo[1..]));
      assert forall i :: 0 <= i < |todo[1..]| ==> todo[1..][i] == todo[i + 1];
      MoveKeepsActor(cfg, s, s', n, w, w');
    } else {
      assert Plain(w');
      PlainKeepsActor(cfg, s, s', n, w, w');
    }
  }

  lemma {:induction false} CommitKeepsActor(cfg: Config, s: Stores, s': Stores, n: nat, w: Worker, w': Worker)
    requires WorkerOk(cfg, s, n, w) && w.phase.CommitPhase?
    requires (s', w') == StepCommit(s, w, w.phase.batch, w.phase.next) && Grows(s, s')
    ensures WorkerOk(cfg, s', n, w')
  {
    if w'.ret == RetErr {
      assert Plain(w');
      PlainKeepsActor(cfg, s, s', n, w, w');
    } else {
      var last := s'.hist.commits[|s.hist.commits|];
      assert last.conv == w.conv && (w.kind.Resume? ==> last.attempt == Some(w.exec));
      MoveKeepsActor(cfg, s, s', n, w, w');
    }
  }

  lemma {:induction false} TurnExitKeepsActor(cfg: Config, s: Stores, s': Stores, n: nat, w: Worker)
    requires WorkerOk(cfg, s, n, w) && w.phase.TurnExit? && Grows(s, s')
    ensures WorkerOk(cfg, s', n, LeaveTurn(w))
  {
    if w.kind.Resume? && w.ret != RetErr {
      GrowthKeepsCommitted(s, s', w.conv, w.exec);
    }
    MoveKeepsActor(cfg, s, s', n, w, LeaveTurn(w));
  }

  // The steps that only move the program counter on.
  lemma {:induction false} PlainStepKeepsActor(cfg: Config, s: Stores, s': Stores, n: nat, w: Worker, w': Worker,
      c: Choice)
    requires WorkerOk(cfg, s, n, w)
      && (w.phase.EnterPhase? || w.phase.ClosePhase? || w.phase.SettlePhase? || w.phase.Gone?)
    requires (s', w') == StepWorker(cfg, s, n, w, c) && Grows(s, s')
    ensures WorkerOk(cfg, s', n, w')
  {
    if w' == w {
      GrowthKeepsBase(s, s', n, w, w');
    } else {
      assert w' == w.(phase := w'.phase) && (w'.phase.ClosePhase? || w'.phase.RunPhase? || w'.phase.Gone?);
      assert Plain(w');
      PlainKeepsActor(cfg, s, s', n, w, w');
    }
  }

  lemma {:induction false} ApprovalExitKeepsActor(cfg: Config, s: Stores, n: nat, w: Worker, w': Worker)
    requires WorkerOk(cfg, s, n, w) && w.phase.ApprovalExit? && w' == StepApprovalExit(w)
    ensures WorkerOk(cfg, s, n, w')
  {
    assert Grows(s, s);
    MoveKeepsActor(cfg, s, s, n, w, w');
  }

  lemma {:induction false} WrongKeepsActor(cfg: Config, s: Stores, n: nat, w: Worker, w': Worker)
    requires WorkerOk(cfg, s, n, w) && CanGoWrong(w) && w' == Return(w, RetErr)
    ensures WorkerOk(cfg, s, n, w')
  {
    assert Grows(s, s);
    assert Plain(w');
    PlainKeepsActor(cfg, s, s, n, w, w');
  }

  lemma {:induction false} WorkerStepKeepsActor(cfg: Config, s: Stores, s': Stores, n: nat, w: Worker, w': Worker,
      c: Choice)
    requires CheckpointsOk(s) && EntriesOk(cfg, s) && WorkerOk(cfg, s, n, w)
    requires (s', w') == StepWorker(cfg, s, n, w, c) && Grows(s, s')
    ensures WorkerOk(cfg, s', n, w')
  {
    if c.GoWrong? && CanGoWrong(w) {
      WrongKeepsActor(cfg, s, n, w, w');
    } else {
      match w.phase
      case BeginPhase => BeginKeepsActor(cfg, s, s', n, w, w');
      case ClaimPhase => ClaimKeepsActor(cfg, s, s', n, w, w');
      case LoadPhase => LoadKeepsActor(cfg, s, n, w, w');
      case RunPhase => RunKeepsActor(cfg, s, s', n, w, w', c);
      case LedgerPhase(_) => if c.WriteRow? { LedgerKeepsActor(cfg, s, s', n, w, w', c.inv); }
      case PersistPhase(_) => PersistKeepsActor(cfg, s, s', n, w, w', c.Skip?);
      case CommitPhase(_, _) => CommitKeepsActor(cfg, s, s', n, w, w');
      case TurnExit => TurnExitKeepsActor(cfg, s, s', n, w);
      case ApprovalExit => ApprovalExitKeepsActor(cfg, s, n, w, w');
      case _ => PlainStepKeepsActor(cfg, s, s', n, w, w', c);
    }
  }

  lemma {:induction false} StumbleKeepsActor(cfg: Config, s: Stores, s': Stores, n: nat, w: Worker)
    requires WorkerOk(cfg, s, n, w) && CallsStore(w) && Grows(s, s')
    ensures WorkerOk(cfg, s', n, AfterError(w))
  {
    if w.phase.TurnExit? {
      TurnExitKeepsActor(cfg, s, s', n, w);
    } else {
      assert Plain(AfterError(w));
      PlainKeepsActor(cfg, s, s', n, w, AfterError(w));
    }
  }

  lemma {:induction false} BeatKeepsActor(cfg: Config, s: Stores, s': Stores, n: nat, w: Worker, w': Worker)
    requires WorkerOk(cfg, s, n, w) && Grows(s, s') && s'.hist == s.hist
    requires w' == w.(approvalBeat := w'.approvalBeat, turnBeat := w'.turnBeat)
    ensures WorkerOk(cfg, s', n, w')
  {
    GrowthKeepsWorker(cfg, s, s', n, w);
    assert PhaseOk(cfg, s', n, w);
    GrowthKeepsBase(s, s', n, w, w');
  }

  lemma {:induction false} CrashKeepsActor(cfg: Config, s: Stores, n: nat, w: Worker, w': Worker)
    requires WorkerOk(cfg, s, n, w) && w' == w.(phase := Gone, approvalBeat := Off, turnBeat := Off)
    ensures WorkerOk(cfg, s, n, w')
  {
    assert Grows(s, s);
    assert Plain(w');
    PlainKeepsActor(cfg, s, s, n, w, w');
  }

  lemma {:induction false} BeatsKeepActor(cfg: Config, s: Stores, s': Stores, n: nat, w: Worker, w': Worker, a: Action)
    requires WorkerOk(cfg, s, n, w) && Grows(s, s')
    requires (a.BeatApproval? || a.BeatTurn? || a.MissApproval? || a.MissTurn?)
      && (s', w') == StepActor(cfg, s, n, w, a)
    ensures WorkerOk(cfg, s', n, w')
  {
    BeatKeepsActor(cfg, s, s', n, w, w');
  }

  lemma {:induction false} ActorKeepsOk(cfg: Config, s: Stores, s': Stores, n: nat, w: Worker, w': Worker, a: Action)
    requires CheckpointsOk(s) && EntriesOk(cfg, s) && WorkerOk(cfg, s, n, w)
    requires (s', w') == StepActor(cfg, s, n, w, a) && Grows(s, s')
    ensures WorkerOk(cfg, s', n, w')
  {
    if a.Advance? {
      WorkerStepKeepsActor(cfg, s, s', n, w, w', a.choice);
    } else if a.Stumble? {
      if CallsStore(w) {
        StumbleKeepsActor(cfg, s, s', n, w);
      }
    } else if a.BeatApproval? || a.BeatTurn? || a.MissApproval? || a.MissTurn? {
      BeatsKeepActor(cfg, s, s', n, w, w', a);
    } else if a.Crash? {
      CrashKeepsActor(cfg, s, n, w, w');
    }
  }

  // Only the actor can own the row of an executor it enters.
  lemma {:induction false} EntriesOfActor(cfg: Config, s: Stores, s': Stores, n: nat, w: Worker, a: Action)
    requires WorkerOk(cfg, s, n, w) && s' == StepActor(cfg, s, n, w, a).0
    ensures s'.hist.entries == s.hist.entries
      || exists e :: s'.hist.entries == s.hist.entries + [e] && (cfg.audited ==>
          e.inv in s.hist.rowOwner && s.hist.rowOwner[e.inv] == n)
  {
    if a.Advance? && w.phase.EnterPhase? {
      var e := Entry(w.conv, w.phase.call.tool, w.phase.call.args, w.phase.call.callId, w.phase.call.approval,
        w.phase.inv, w.exec);
      assert s'.hist.entries == s.hist.entries + [e];
    }
  }

  lemma {:induction false} ActorKeepsWorkers(cfg: Config, s: Stores, s': Stores, workers: map<nat, Worker>, n: nat,
      w': Worker, a: Action)
    requires CheckpointsOk(s) && EntriesOk(cfg, s) && WorkersOk(cfg, s, workers) && n in workers
    requires (s', w') == StepActor(cfg, s, n, workers[n], a) && Grows(s, s')
    ensures WorkersOk(cfg, s', workers[n := w'])
  {
    ActorKeepsOk(cfg, s, s', n, workers[n], w', a);
    EntriesOfActor(cfg, s, s', n, workers[n], a);
    forall m | m in workers && m != n
      ensures WorkerOk(cfg, s', m, workers[m])
    {
      GrowthKeepsWorker(cfg, s, s', m, workers[m]);
    }
  }

  lemma {:induction false} WorldKeepsWorkers(cfg: Config, s: Stores, s': Stores, workers: map<nat, Worker>)
    requires WorkersOk(cfg, s, workers) && Grows(s, s') && s'.hist == s.hist
    ensures WorkersOk(cfg, s', workers)
  {
    forall m | m in workers
      ensures WorkerOk(cfg, s', m, workers[m])
    {
      GrowthKeepsWorker(cfg, s, s', m, workers[m]);
    }
  }
}
