/** Whatever is proved of every run of the machine holds of the stores an engine leaves behind. */
module EngineSafety {
  import opened Prelude
  import A = Approvals
  import T = Turns
  import L = ToolLedger
  import opened ResumeProtocol
  import opened ResumeInvariant
  import RS = ResumeSafety
  import Engine

  /**
   After any calls of a new engine's methods: the ledger has one row for each non-empty call id, an approval is
   completed only by an attempt that committed its turn, and every log is whole committed turns.
   */
  lemma {:induction false} EngineIsSafe(e: Engine.Engine, conv: Id, id: Id)
    requires e.Valid() && e.reached == Reachable(e.cfg)
    ensures Inv(e.cfg, e.sys) && L.CallsOnce(e.tools.invocations)
    ensures T.MessagesOf(e.turns.State(), conv) == LogOf(e.sys.stores.hist.commits, conv)
    ensures id in e.approvals.approvals && e.approvals.approvals[id].exec == A.Completed ==>
      exists token :: AttemptCommitted(e.sys.stores, e.approvals.approvals[id].conversationId, token)
          && token in e.sys.stores.hist.attempts
                      && e.sys.stores.hist.attempts[token].approvalId == id
  {
    assert Reaches(e.cfg, e.sys);
    var acts :| Run(e.cfg, INIT, acts) == e.sys;
    RS.RunKeepsInv(e.cfg, INIT, acts);
    RS.LogIsCommittedTurns(e.cfg, acts, conv);
    if id in e.approvals.approvals && e.approvals.approvals[id].exec == A.Completed {
      RS.CompletedMeansCommitted(e.cfg, acts, id);
      var token := e.sys.stores.hist.completedBy[id];
      assert AttemptCommitted(e.sys.stores, e.approvals.approvals[id].conversationId, token);
    }
  }
}
