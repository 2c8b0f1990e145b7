/** An attempt at an approval commits at most one turn. */
module ResumeAttempts {
  import opened Prelude
  import TR = TurnRuns
  import opened ResumeProtocol
  import opened ResumeInvariant
  import opened ResumeFrames
  import RS = ResumeSafety

  // A worker keeps its token and its turn from its claims on.
  predicate PastClaims(w: Worker) {
    !w.phase.BeginPhase? && !w.phase.ClaimPhase?
  }

  // The commit was made by the worker its attempt belongs to, in that worker's turn.
  ghost predicate OwnedCommit(sys: Sys, c: Committed) {
    c.attempt.Some? ==>
      && c.attempt.value in sys.stores.hist.attempts
      && var n := sys.stores.hist.attempts[c.attempt.value].worker;
         n in sys.workers && PastClaims(sys.workers[n]) && sys.workers[n].exec == c.attempt.value
         && sys.workers[n].conv == c.conv && sys.workers[n].turn == c.turn
  }

  ghost predicate CommitsOwned(sys: Sys) {
    forall i :: 0 <= i < |sys.stores.hist.commits| ==> OwnedCommit(sys, sys.stores.hist.commits[i])
  }

  // A worker past its claims stays there, with the same token, turn and conversation.
  lemma {:induction false} IdentityIsKept(cfg: Config, s: Stores, n: nat, w: Worker, a: Action)
    requires PastClaims(w)
    ensures
      var w' := StepActor(cfg, s, n, w, a).1;
      PastClaims(w') && w'.exec == w.exec && w'.turn == w.turn && w'.conv == w.conv
  {
  }

  predicate Commits(a: Action, w: Worker) {
    (a.Advance? || a.Stumble?) && w.phase.CommitPhase?
  }

  // Only a commit step adds a commit.
  lemma {:induction false} OthersDoNotCommit(cfg: Config, s: Stores, n: nat, w: Worker, a: Action)
    requires TR.Inv(s.turns) && PhaseOk(cfg, s, n, w) && !Commits(a, w)
    ensures StepActor(cfg, s, n, w, a).0.hist.commits == s.hist.commits
  {
    var s' := StepActor(cfg, s, n, w, a).0;
    if !Loud(a, w) {
      ActorIsQuiet(cfg, s, s', n, w, a);
    } else if w.phase.EnterPhase? {
      EnterFrame(s, s', w, w.phase.call, w.phase.inv);
    } else if s' != s && w.phase.SettlePhase? {
      SettleFrame(s, s', w);
    } else if s' != s {
      PersistFrame(s, s', w, w.phase.todo, a.choice.Skip?);
    }
  }

  lemma {:induction false} NewCommitIsOwn(cfg: Config, sys: Sys, sys': Sys, a: Action)
    requires Inv(cfg, sys) && OfActor(a) && a.worker in sys.workers && sys' == Next(cfg, sys, a)
    requires Grows(sys.stores, sys'.stores) && sys'.stores.hist.commits != sys.stores.hist.commits
    ensures exists c :: sys'.stores.hist.commits == sys.stores.hist.commits + [c] && OwnedCommit(sys', c)
  {
    var s, w := sys.stores, sys.workers[a.worker];
    assert WorkerOk(cfg, s, a.worker, w);
    if Commits(a, w) {
      var c := Committed(w.conv, w.turn, if w.kind.Resume? then Some(w.exec) else None, w.phase.batch, w.phase.next);
      assert sys'.stores.hist.commits == s.hist.commits + [c];
      assert OwnedCommit(sys', c);
    } else {
      OthersDoNotCommit(cfg, s, a.worker, w, a);
    }
  }

  lemma {:induction false} OwnedStays(cfg: Config, sys: Sys, a: Action, c: Committed)
    requires OwnedCommit(sys, c) && Grows(sys.stores, Next(cfg, sys, a).stores)
    ensures OwnedCommit(Next(cfg, sys, a), c)
  {
    if c.attempt.Some? {
      var n := sys.stores.hist.attempts[c.attempt.value].worker;
      if OfActor(a) && a.worker == n {
        IdentityIsKept(cfg, sys.stores, n, sys.workers[n], a);
      }
    }
  }

  lemma {:induction false} OwnedStayAll(cfg: Config, sys: Sys, a: Action)
    requires CommitsOwned(sys) && Grows(sys.stores, Next(cfg, sys, a).stores)
    ensures forall i :: 0 <= i < |sys.stores.hist.commits| ==>
      OwnedCommit(Next(cfg, sys, a), sys.stores.hist.commits[i])
  {
    forall i | 0 <= i < |sys.stores.hist.commits|
      ensures OwnedCommit(Next(cfg, sys, a), sys.stores.hist.commits[i])
    {
      OwnedStays(cfg, sys, a, sys.stores.hist.commits[i]);
    }
  }

  lemma {:induction false} OthersKeepCommits(cfg: Config, sys: Sys, a: Action)
    requires !OfActor(a) || a.worker !in sys.workers
    ensures Next(cfg, sys, a).stores.hist.commits == sys.stores.hist.commits
  {
  }

  lemma {:induction false} NextKeepsOwned(cfg: Config, sys: Sys, a: Action)
    requires Inv(cfg, sys) && CommitsOwned(sys)
    ensures CommitsOwned(Next(cfg, sys, a))
  {
    var sys' := Next(cfg, sys, a);
    RS.NextKeepsInv(cfg, sys, a);
    OwnedStayAll(cfg, sys, a);
    if !OfActor(a) || a.worker !in sys.workers {
      OthersKeepCommits(cfg, sys, a);
    } else if sys'.stores.hist.commits != sys.stores.hist.commits {
      NewCommitIsOwn(cfg, sys, sys', a);
    }
  }

  lemma {:induction false} RunKeepsOwned(cfg: Config, sys: Sys, acts: seq<Action>)
    requires Inv(cfg, sys) && CommitsOwned(sys)
    ensures Inv(cfg, Run(cfg, sys, acts)) && CommitsOwned(Run(cfg, sys, acts))
    decreases |acts|
  {
    if acts != [] {
      RS.NextKeepsInv(cfg, sys, acts[0]);
      NextKeepsOwned(cfg, sys, acts[0]);
      RunKeepsOwned(cfg, Next(cfg, sys, acts[0]), acts[1..]);
    }
  }

  /**
   In every run an attempt at an approval commits at most one turn, however often its steps are repeated or delayed.
   */
  lemma {:induction false} AttemptsCommitOnce(cfg: Config, acts: seq<Action>, i: nat, j: nat)
    requires i < j < |Run(cfg, INIT, acts).stores.hist.commits|
    requires Run(cfg, INIT, acts).stores.hist.commits[i].attempt.Some?
    ensures Run(cfg, INIT, acts).stores.hist.commits[i].attempt != Run(cfg, INIT, acts).stores.hist.commits[j].attempt
  {
    RunKeepsOwned(cfg, INIT, acts);
    var sys := Run(cfg, INIT, acts);
    var commits := sys.stores.hist.commits;
    assert CommitsOk(sys.stores);
    assert OwnedCommit(sys, commits[i]) && OwnedCommit(sys, commits[j]);
  }
}
