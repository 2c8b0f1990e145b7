/** What each action of the approval-resume protocol leaves alone. */
module ResumeFrames {
  import opened Prelude
  import A = Approvals
  import T = Turns
  import TR = TurnRuns
  import opened ResumeProtocol

  // No approval becomes completed.
  ghost predicate NoneCompleted(s: Stores, s': Stores) {
    && s'.hist.completedBy == s.hist.completedBy
    && forall id :: id in s'.approvals.approvals && s'.approvals.approvals[id].exec == A.Completed ==>
         id in s.approvals.approvals && s.approvals.approvals[id].exec == A.Completed
  }

  // A turn-store call that appends nothing, and never lowers the least revision that can still commit.
  ghost predicate TurnsAdvance(t: T.Store, t': T.Store) {
    forall conv :: TR.Floor(t, conv) <= TR.Floor(t', conv) && T.MessagesOf(t', conv) == T.MessagesOf(t, conv)
  }

  ghost predicate NoCommit(s: Stores, s': Stores) {
    s'.hist.commits == s.hist.commits && TurnsAdvance(s.turns, s'.turns)
  }

  // A step that saves no checkpoint, enters no executor, completes no approval and commits no turn.
  ghost predicate Quiet(s: Stores, s': Stores) {
    && s'.approvals.checkpoints == s.approvals.checkpoints
    && s'.hist.entries == s.hist.entries
    && NoneCompleted(s, s')
    && NoCommit(s, s')
  }

  // The four kinds of step that are not quiet.
  predicate Loud(a: Action, w: Worker) {
    || (a.Advance? && (w.phase.PersistPhase? || w.phase.EnterPhase? || w.phase.SettlePhase? || w.phase.CommitPhase?))
    || (a.Stumble? && (w.phase.PersistPhase? || w.phase.SettlePhase? || w.phase.CommitPhase?))
  }

  lemma {:induction false} ClaimIsSilent(t: T.Store, conv: Id, resume: bool, now: int)
    requires TR.Inv(t)
    ensures TurnsAdvance(t, T.Claim(t, conv, resume, now).0)
  {
  }

  lemma {:induction false} RenewIsSilent(t: T.Store, conv: Id, token: T.TurnToken, now: int)
    requires TR.Inv(t)
    ensures TurnsAdvance(t, T.Renew(t, conv, token, now).0)
  {
  }

  lemma {:induction false} ReleaseIsSilent(t: T.Store, conv: Id, token: T.TurnToken, next: T.ConvStatus)
    requires TR.Inv(t)
    ensures TurnsAdvance(t, T.Release(t, conv, token, next).0)
  {
  }

  lemma {:induction false} CreationIsSilent(t: T.Store, conv: Id)
    requires TR.Inv(t) && conv !in t.status
    ensures TurnsAdvance(t, T.CreateConversation(t, conv))
  {
  }

  lemma {:induction false} TurnStepsAreQuiet(s: Stores, s': Stores, w: Worker)
    requires TR.Inv(s.turns)
    requires s' == StepClaim(s, w).0 || s' == StepTurnExit(s, w).0 || s' == StepBeatTurn(s, w).0
    ensures Quiet(s, s')
  {
    ClaimIsSilent(s.turns, w.conv, w.kind.Resume?, s.now);
    RenewIsSilent(s.turns, w.conv, w.turn, s.now);
    ReleaseIsSilent(s.turns, w.conv, w.turn, w.releaseStatus);
  }

  lemma {:induction false} BeginIsQuiet(s: Stores, s': Stores, n: nat, w: Worker)
    requires w.kind.Resume? && s' == StepBegin(s, n, w).0
    ensures Quiet(s, s')
  {
    assert s'.turns == s.turns;
  }

  lemma {:induction false} CallIsQuiet(cfg: Config, s: Stores, s': Stores, w: Worker, c: Choice)
    requires s' == StepRun(cfg, s, w, c).0
    ensures Quiet(s, s')
  {
    assert s'.turns == s.turns;
  }

  lemma {:induction false} RunStepsAreQuiet(cfg: Config, s: Stores, s': Stores, n: nat, w: Worker, c: Choice)
    requires !w.phase.ClaimPhase? && !w.phase.TurnExit? && !Loud(Advance(n, c), w)
    requires s' == StepWorker(cfg, s, n, w, c).0
    ensures Quiet(s, s')
  {
    if s' == s {
      assert Quiet(s, s);
    } else if w.phase.BeginPhase? {
      BeginIsQuiet(s, s', n, w);
    } else if w.phase.RunPhase? {
      CallIsQuiet(cfg, s, s', w, c);
    } else {
      assert s'.turns == s.turns && s'.approvals == s.approvals;
    }
  }

  lemma {:induction false} StepsAreQuiet(cfg: Config, s: Stores, s': Stores, n: nat, w: Worker, c: Choice)
    requires TR.Inv(s.turns) && !Loud(Advance(n, c), w) && s' == StepWorker(cfg, s, n, w, c).0
    ensures Quiet(s, s')
  {
    if w.phase.ClaimPhase? || w.phase.TurnExit? {
      TurnStepsAreQuiet(s, s', w);
    } else {
      RunStepsAreQuiet(cfg, s, s', n, w, c);
    }
  }

  lemma {:induction false} ActorIsQuiet(cfg: Config, s: Stores, s': Stores, n: nat, w: Worker, a: Action)
    requires TR.Inv(s.turns) && !Loud(a, w) && s' == StepActor(cfg, s, n, w, a).0
    ensures Quiet(s, s')
  {
    if s' == s {
      assert Quiet(s, s);
    } else if a.Advance? || a.Stumble? {
      StepsAreQuiet(cfg, s, s', n, w, a.choice);
    } else if a.BeatTurn? || a.MissTurn? {
      TurnStepsAreQuiet(s, s', w);
    } else {
      assert s'.turns == s.turns;
    }
  }

  lemma {:induction false} WorldIsQuiet(s: Stores, s': Stores, a: Action)
    requires TR.Inv(s.turns) && s' == StepWorld(s, a)
    ensures Quiet(s, s')
  {
    if a.NewConversation? {
      if a.conv != NO_ID && a.conv !in s.turns.status {
        CreationIsSilent(s.turns, a.conv);
      }
    } else {
      assert s'.turns.turns == s.turns.turns && s'.turns.messages == s.turns.messages;
    }
  }

  // A loud step does one of the four things only.

  lemma {:induction false} EnterFrame(s: Stores, s': Stores, w: Worker, call: Call, inv: Id)
    requires s' == StepEnter(s, w, call, inv).0
    ensures NoneCompleted(s, s') && NoCommit(s, s') && s'.approvals.checkpoints == s.approvals.checkpoints
  {
  }

  lemma {:induction false} PersistFrame(s: Stores, s': Stores, w: Worker, todo: seq<Raised>, skip: bool)
    requires s' == StepPersist(s, w, todo, skip).0
    ensures NoneCompleted(s, s') && NoCommit(s, s') && s'.hist.entries == s.hist.entries
  {
  }

  lemma {:induction false} CommitFrame(s: Stores, s': Stores, w: Worker, batch: seq<T.Message>, next: T.ConvStatus)
    requires s' == StepCommit(s, w, batch, next).0
    ensures NoneCompleted(s, s') && s'.hist.entries == s.hist.entries
      && s'.approvals.checkpoints == s.approvals.checkpoints
  {
  }

  lemma {:induction false} SettleFrame(s: Stores, s': Stores, w: Worker)
    requires w.kind.Resume? && s' == StepSettle(s, w)
    ensures NoCommit(s, s') && s'.hist.entries == s.hist.entries && s'.approvals.checkpoints == s.approvals.checkpoints
  {
  }
}
