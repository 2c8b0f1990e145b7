/** Safety of the approval-resume protocol over every run. */
module ResumeSafety {
  import opened Prelude
  import A = Approvals
  import T = Turns
  import TR = TurnRuns
  import L = ToolLedger
  import opened ResumeProtocol
  import opened ResumeInvariant
  import opened ResumeStores
  import opened ResumeWorkers
  import opened ResumeFrames

  // The parts of the invariant that only loud steps can break.
  ghost predicate PastOk(cfg: Config, s: Stores) {
    CheckpointsOk(s) && EntriesOk(cfg, s) && CompletedOk(s) && CommitsOk(s)
  }

  // ---- checkpoints ----

  lemma {:induction false} SameCheckpointsKeepOk(s: Stores, s': Stores)
    requires CheckpointsOk(s) && Grows(s, s') && s'.approvals.checkpoints == s.approvals.checkpoints
    ensures CheckpointsOk(s')
  {
    forall id | id in s'.approvals.checkpoints
      ensures PayloadOk(s', s'.approvals.checkpoints[id].conversationId, id, s'.approvals.checkpoints[id].state)
    {
      GrowthKeepsPayload(s, s', s.approvals.checkpoints[id].conversationId, id, s.approvals.checkpoints[id].state);
    }
  }

  // The payload saved for a raised interrupt names that interrupt's approval.
  lemma {:induction false} RaisedPayloadIsOk(s: Stores, conv: Id, raised: seq<Raised>, i: nat)
    requires i < |raised| && Distinct(raised)
    requires forall k :: 0 <= k < |raised| ==> InfoOk(s, conv, raised[k].info)
    ensures PayloadOk(s, conv, raised[i].info.approvalId, Payload(raised[i].interruptId, DataOf(raised)))
  {
    DataOfNames(raised, i);
    DataOfHolds(s, conv, raised);
  }

  lemma {:induction false} SavingKeepsCheckpoints(s: Stores, s': Stores, conv: Id, id: Id, payload: Payload)
    requires CheckpointsOk(s) && Grows(s, s') && PayloadOk(s, conv, id, payload)
    requires s'.approvals.checkpoints == s.approvals.checkpoints[id := A.Checkpoint(conv, payload)]
    ensures CheckpointsOk(s')
  {
    GrowthKeepsPayload(s, s', conv, id, payload);
    forall i | i in s'.approvals.checkpoints
      ensures PayloadOk(s', s'.approvals.checkpoints[i].conversationId, i, s'.approvals.checkpoints[i].state)
    {
      if i != id {
        GrowthKeepsPayload(s, s', s.approvals.checkpoints[i].conversationId, i, s.approvals.checkpoints[i].state);
      }
    }
  }

  lemma {:induction false} PersistKeepsCheckpoints(s: Stores, s': Stores, n: nat, w: Worker, skip: bool)
    requires CheckpointsOk(s) && BaseOk(s, n, w) && w.phase.PersistPhase?
    requires forall i :: 0 <= i < |w.phase.todo| ==> w.phase.todo[i] in w.raised
    requires s' == StepPersist(s, w, w.phase.todo, skip).0 && Grows(s, s')
    ensures CheckpointsOk(s')
  {
    if s'.approvals.checkpoints == s.approvals.checkpoints {
      SameCheckpointsKeepOk(s, s');
    } else {
      var r := w.phase.todo[0];
      var i :| 0 <= i < |w.raised| && w.raised[i] == r;
      RaisedPayloadIsOk(s, w.conv, w.raised, i);
      SavingKeepsCheckpoints(s, s', w.conv, r.info.approvalId, Payload(r.interruptId, DataOf(w.raised)));
    }
  }

  // ---- executors ----

  lemma {:induction false} GrowthKeepsEntry(cfg: Config, s: Stores, s': Stores, e: Entry)
    requires Grows(s, s') && EntryOk(cfg, s, e)
    ensures EntryOk(cfg, s', e)
  {
    GrowthKeepsCall(cfg, s, s', e.conv, Call(e.tool, e.args, e.callId, e.approval));
  }

  lemma {:induction false} SameEntriesKeepOk(cfg: Config, s: Stores, s': Stores)
    requires EntriesOk(cfg, s) && Grows(s, s') && s'.hist.entries == s.hist.entries
    ensures EntriesOk(cfg, s')
  {
    forall i | 0 <= i < |s'.hist.entries|
      ensures EntryOk(cfg, s', s'.hist.entries[i])
    {
      GrowthKeepsEntry(cfg, s, s', s.hist.entries[i]);
    }
  }

  lemma {:induction false} EnteredCallIsOk(cfg: Config, s: Stores, n: nat, w: Worker, e: Entry)
    requires WorkerOk(cfg, s, n, w) && w.phase.EnterPhase?
    requires e == Entry(w.conv, w.phase.call.tool, w.phase.call.args, w.phase.call.callId, w.phase.call.approval,
      w.phase.inv, w.exec)
    ensures EntryOk(cfg, s, e)
  {
    assert w.phase.call == Call(e.tool, e.args, e.callId, e.approval);
    assert RowOk(cfg, s, n, w.conv, w.phase.call, w.phase.inv);
  }

  lemma {:induction false} EnterKeepsEntries(cfg: Config, s: Stores, s': Stores, n: nat, w: Worker)
    requires EntriesOk(cfg, s) && WorkerOk(cfg, s, n, w) && w.phase.EnterPhase?
    requires s' == StepEnter(s, w, w.phase.call, w.phase.inv).0 && Grows(s, s')
    ensures EntriesOk(cfg, s')
  {
    var call := w.phase.call;
    var e := Entry(w.conv, call.tool, call.args, call.callId, call.approval, w.phase.inv, w.exec);
    assert s'.hist.entries == s.hist.entries + [e];
    EnteredCallIsOk(cfg, s, n, w, e);
    forall i | 0 <= i < |s'.hist.entries|
      ensures EntryOk(cfg, s', s'.hist.entries[i])
    {
      GrowthKeepsEntry(cfg, s, s', s'.hist.entries[i]);
    }
  }

  // ---- completion ----

  lemma {:induction false} NoneCompletedKeepsOk(s: Stores, s': Stores)
    requires CompletedOk(s) && Grows(s, s') && NoneCompleted(s, s')
    ensures CompletedOk(s')
  {
    forall id | id in s'.approvals.approvals && s'.approvals.approvals[id].exec == A.Completed
      ensures id in s'.hist.completedBy && s'.hist.completedBy[id] in s'.hist.attempts
      ensures s'.hist.attempts[s'.hist.completedBy[id]].approvalId == id
      ensures AttemptCommitted(s', s'.approvals.approvals[id].conversationId, s'.hist.completedBy[id])
    {
      var a := s.approvals.approvals[id];
      assert SameAsk(a, s'.approvals.approvals[id]);
      GrowthKeepsCommitted(s, s', a.conversationId, s.hist.completedBy[id]);
    }
  }

  lemma {:induction false} CompletingKeepsOk(s: Stores, s': Stores, id: Id, exec: A.Token)
    requires CompletedOk(s) && Grows(s, s') && id in s.approvals.approvals && id in s'.approvals.approvals
    requires s'.approvals.approvals == s.approvals.approvals[id := s'.approvals.approvals[id]]
    requires s'.hist.completedBy == s.hist.completedBy[id := exec]
    requires exec in s.hist.attempts && s.hist.attempts[exec].approvalId == id
    requires AttemptCommitted(s, s'.approvals.approvals[id].conversationId, exec)
    ensures CompletedOk(s')
  {
    GrowthKeepsCommitted(s, s', s'.approvals.approvals[id].conversationId, exec);
    forall i | i in s.approvals.approvals && i != id && s.approvals.approvals[i].exec == A.Completed
      ensures AttemptCommitted(s', s.approvals.approvals[i].conversationId, s.hist.completedBy[i])
    {
      GrowthKeepsCommitted(s, s', s.approvals.approvals[i].conversationId, s.hist.completedBy[i]);
    }
  }

  lemma {:induction false} SettleKeepsCompleted(cfg: Config, s: Stores, s': Stores, n: nat, w: Worker)
    requires CompletedOk(s) && WorkerOk(cfg, s, n, w) && w.phase.SettlePhase?
    requires s' == StepSettle(s, w) && Grows(s, s')
    ensures CompletedOk(s')
  {
    var id := w.kind.approvalId;
    if w.ret == RetErr || A.CompleteExecution(s.approvals, id, w.exec, s.now).1.Err? {
      NoneCompletedKeepsOk(s, s');
    } else {
      assert s'.approvals.approvals[id].conversationId == w.conv;
      CompletingKeepsOk(s, s', id, w.exec);
    }
  }

  // ---- the message log ----

  lemma {:induction false} NoCommitKeepsOk(s: Stores, s': Stores)
    requires CommitsOk(s) && NoCommit(s, s')
    ensures CommitsOk(s')
  {
    forall i | 0 <= i < |s'.hist.commits|
      ensures Revision(s'.hist.commits[i]) < TR.Floor(s'.turns, s'.hist.commits[i].conv)
    {
      var conv := s.hist.commits[i].conv;
      assert TR.Floor(s.turns, conv) <= TR.Floor(s'.turns, conv);
    }
  }

  // What an accepted commit does to the turns of every conversation.
  lemma {:induction false} CommitRaisesFloor(t: T.Store, t': T.Store, conv: Id, token: T.TurnToken,
      batch: seq<T.Message>, next: T.ConvStatus)
    requires TR.Inv(t) && T.Holds(t, conv, token) && t' == T.Commit(t, conv, token, AllPresent(batch), next).0
    ensures token != T.NoTurn && token.revision == TR.Floor(t, conv) && TR.Floor(t', conv) == token.revision + 1
    ensures forall c :: c != conv ==> TR.Floor(t', c) == TR.Floor(t, c)
    ensures forall c :: T.MessagesOf(t', c) == T.MessagesOf(t, c) + (if c == conv then batch else [])
  {
  }

  lemma {:induction false} AcceptedCommitKeepsOk(s: Stores, s': Stores, c: Committed)
    requires CommitsOk(s) && s'.hist.commits == s.hist.commits + [c]
    requires c.turn != T.NoTurn && Revision(c) == TR.Floor(s.turns, c.conv)
      && TR.Floor(s'.turns, c.conv) == Revision(c) + 1
    requires forall conv :: conv != c.conv ==> TR.Floor(s'.turns, conv) == TR.Floor(s.turns, conv)
    requires forall conv ::
      T.MessagesOf(s'.turns, conv) == T.MessagesOf(s.turns, conv) + (if conv == c.conv then c.messages else [])
    ensures CommitsOk(s')
  {
    assert s'.hist.commits[..|s.hist.commits|] == s.hist.commits;
    forall i | 0 <= i < |s.hist.commits|
      ensures Revision(s.hist.commits[i]) < TR.Floor(s.turns, s.hist.commits[i].conv)
        <= TR.Floor(s'.turns, s.hist.commits[i].conv)
    {
    }
  }

  lemma {:induction false} CommitKeepsCommits(s: Stores, s': Stores, w: Worker, batch: seq<T.Message>,
      next: T.ConvStatus)
    requires TR.Inv(s.turns) && CommitsOk(s) && s' == StepCommit(s, w, batch, next).0
    ensures CommitsOk(s')
  {
    if T.Holds(s.turns, w.conv, w.turn) {
      var c := Committed(w.conv, w.turn, if w.kind.Resume? then Some(w.exec) else None, batch, next);
      assert s'.hist.commits == s.hist.commits + [c];
      CommitRaisesFloor(s.turns, s'.turns, w.conv, w.turn, batch, next);
      AcceptedCommitKeepsOk(s, s', c);
    } else {
      assert s' == s;
    }
  }

  // ---- one action ----

  lemma {:induction false} QuietKeepsPast(cfg: Config, s: Stores, s': Stores)
    requires PastOk(cfg, s) && Grows(s, s') && Quiet(s, s')
    ensures PastOk(cfg, s')
  {
    SameCheckpointsKeepOk(s, s');
    SameEntriesKeepOk(cfg, s, s');
    NoneCompletedKeepsOk(s, s');
    NoCommitKeepsOk(s, s');
  }

  lemma {:induction false} EnterKeepsPast(cfg: Config, s: Stores, s': Stores, n: nat, w: Worker)
    requires PastOk(cfg, s) && WorkerOk(cfg, s, n, w) && w.phase.EnterPhase?
    requires s' == StepEnter(s, w, w.phase.call, w.phase.inv).0 && Grows(s, s')
    ensures PastOk(cfg, s')
  {
    EnterFrame(s, s', w, w.phase.call, w.phase.inv);
    SameCheckpointsKeepOk(s, s');
    EnterKeepsEntries(cfg, s, s', n, w);
    NoneCompletedKeepsOk(s, s');
    NoCommitKeepsOk(s, s');
  }

  lemma {:induction false} PersistKeepsPast(cfg: Config, s: Stores, s': Stores, n: nat, w: Worker, skip: bool)
    requires PastOk(cfg, s) && WorkerOk(cfg, s, n, w) && w.phase.PersistPhase?
    requires s' == StepPersist(s, w, w.phase.todo, skip).0 && Grows(s, s')
    ensures PastOk(cfg, s')
  {
    PersistFrame(s, s', w, w.phase.todo, skip);
    PersistKeepsCheckpoints(s, s', n, w, skip);
    SameEntriesKeepOk(cfg, s, s');
    NoneCompletedKeepsOk(s, s');
    NoCommitKeepsOk(s, s');
  }

  lemma {:induction false} CommitKeepsPast(cfg: Config, s: Stores, s': Stores, w: Worker)
    requires PastOk(cfg, s) && TR.Inv(s.turns) && w.phase.CommitPhase?
    requires s' == StepCommit(s, w, w.phase.batch, w.phase.next).0 && Grows(s, s')
    ensures PastOk(cfg, s')
  {
    CommitFrame(s, s', w, w.phase.batch, w.phase.next);
    SameCheckpointsKeepOk(s, s');
    SameEntriesKeepOk(cfg, s, s');
    NoneCompletedKeepsOk(s, s');
    CommitKeepsCommits(s, s', w, w.phase.batch, w.phase.next);
  }

  lemma {:induction false} SettleKeepsPast(cfg: Config, s: Stores, s': Stores, n: nat, w: Worker)
    requires PastOk(cfg, s) && WorkerOk(cfg, s, n, w) && w.phase.SettlePhase?
    requires s' == StepSettle(s, w) && Grows(s, s')
    ensures PastOk(cfg, s')
  {
    SettleFrame(s, s', w);
    SameCheckpointsKeepOk(s, s');
    SameEntriesKeepOk(cfg, s, s');
    SettleKeepsCompleted(cfg, s, s', n, w);
    NoCommitKeepsOk(s, s');
  }

  lemma {:induction false} LoudKeepsPast(cfg: Config, s: Stores, s': Stores, n: nat, w: Worker, c: Choice)
    requires PastOk(cfg, s) && TR.Inv(s.turns) && WorkerOk(cfg, s, n, w) && Loud(Advance(n, c), w)
    requires s' == StepWorker(cfg, s, n, w, c).0 && s' != s && Grows(s, s')
    ensures PastOk(cfg, s')
  {
    match w.phase
    case EnterPhase(_, _) => EnterKeepsPast(cfg, s, s', n, w);
    case CommitPhase(_, _) => CommitKeepsPast(cfg, s, s', w);
    case SettlePhase => SettleKeepsPast(cfg, s, s', n, w);
    case PersistPhase(_) => PersistKeepsPast(cfg, s, s', n, w, c.Skip?);
  }

  lemma {:induction false} ActorKeepsPast(cfg: Config, s: Stores, s': Stores, n: nat, w: Worker, a: Action)
    requires PastOk(cfg, s) && TR.Inv(s.turns) && WorkerOk(cfg, s, n, w)
    requires s' == StepActor(cfg, s, n, w, a).0 && Grows(s, s')
    ensures PastOk(cfg, s')
  {
    if !Loud(a, w) {
      ActorIsQuiet(cfg, s, s', n, w, a);
      QuietKeepsPast(cfg, s, s');
    } else if s' != s {
      LoudKeepsPast(cfg, s, s', n, w, a.choice);
    }
  }

  lemma {:induction false} ActorKeepsInv(cfg: Config, sys: Sys, a: Action)
    requires Inv(cfg, sys) && OfActor(a) && a.worker in sys.workers
    ensures Inv(cfg, Next(cfg, sys, a)) && Grows(sys.stores, Next(cfg, sys, a).stores)
  {
    var s, w := sys.stores, sys.workers[a.worker];
    var (s', w') := StepActor(cfg, s, a.worker, w, a);
    assert WorkerOk(cfg, s, a.worker, w);
    ActorIsFine(cfg, s, s', a.worker, w, a);
    ActorKeepsWorkers(cfg, s, s', sys.workers, a.worker, w', a);
    ActorKeepsPast(cfg, s, s', a.worker, w, a);
  }

  lemma {:induction false} WorldKeepsInv(cfg: Config, sys: Sys, a: Action)
    requires Inv(cfg, sys) && !OfActor(a) && !a.StartChat? && !a.StartResume?
    ensures Inv(cfg, Next(cfg, sys, a)) && Grows(sys.stores, Next(cfg, sys, a).stores)
  {
    var s, s' := sys.stores, StepWorld(sys.stores, a);
    WorldIsFine(s, s', a);
    WorldKeepsWorkers(cfg, s, s', sys.workers);
    WorldIsQuiet(s, s', a);
    QuietKeepsPast(cfg, s, s');
  }

  lemma {:induction false} NextKeepsInv(cfg: Config, sys: Sys, a: Action)
    requires Inv(cfg, sys)
    ensures Inv(cfg, Next(cfg, sys, a)) && Grows(sys.stores, Next(cfg, sys, a).stores)
  {
    if OfActor(a) {
      if a.worker in sys.workers {
        ActorKeepsInv(cfg, sys, a);
      }
    } else if !a.StartChat? && !a.StartResume? {
      WorldKeepsInv(cfg, sys, a);
    }
  }

  // ---- every run ----

  lemma {:induction false} RunKeepsInv(cfg: Config, sys: Sys, acts: seq<Action>)
    requires Inv(cfg, sys)
    ensures Inv(cfg, Run(cfg, sys, acts))
    decreases |acts|
  {
    if acts != [] {
      NextKeepsInv(cfg, sys, acts[0]);
      RunKeepsInv(cfg, Next(cfg, sys, acts[0]), acts[1..]);
    }
  }

  /** With a ledger, the executor of a given call of a conversation is entered at most once, in every run. */
  lemma {:induction false} ExecutorsEnteredOnce(cfg: Config, acts: seq<Action>, i: nat, j: nat)
    requires cfg.audited
    requires i < j < |Run(cfg, INIT, acts).stores.hist.entries|
    ensures
      var es := Run(cfg, INIT, acts).stores.hist.entries;
      es[i].callId != NO_ID && es[i].conv == es[j].conv ==> es[i].callId != es[j].callId
  {
    RunKeepsInv(cfg, INIT, acts);
    var s := Run(cfg, INIT, acts).stores;
    var es := s.hist.entries;
    assert EntryOk(cfg, s, es[i]) && EntryOk(cfg, s, es[j]);
    assert !L.SameCall(s.ledger[es[i].inv], s.ledger[es[j].inv]);
  }

  /**
   A sensitive tool's executor is entered only inside a resume attempt that claimed its approval, and that
   approval was granted in this conversation for exactly this tool, this input and this call id.
   */
  lemma {:induction false} SensitiveCallsWereApproved(cfg: Config, acts: seq<Action>, i: nat)
    requires i < |Run(cfg, INIT, acts).stores.hist.entries|
    requires (Run(cfg, INIT, acts).stores.hist.entries[i].conv,
      Run(cfg, INIT, acts).stores.hist.entries[i].tool) in cfg.sensitive
    ensures
      var s := Run(cfg, INIT, acts).stores;
      var e := s.hist.entries[i];
      && e.approval.Some? && e.approval.value in s.approvals.approvals
      && e.exec in s.hist.attempts && s.hist.attempts[e.exec].approvalId == e.approval.value
      && e.approval.value in s.hist.asked && s.hist.asked[e.approval.value] == e.callId
      && var a := s.approvals.approvals[e.approval.value];
         a.status == A.Approved && a.conversationId == e.conv && a.action == e.tool && a.payload == e.args
  {
    RunKeepsInv(cfg, INIT, acts);
    var s := Run(cfg, INIT, acts).stores;
    assert EntryOk(cfg, s, s.hist.entries[i]);
  }

  /** An approval is spent at most once: no two executors are ever entered under it, whatever its attempts did. */
  lemma {:induction false} ApprovalsAreSpentOnce(cfg: Config, acts: seq<Action>, i: nat, j: nat)
    requires cfg.audited
    requires i < j < |Run(cfg, INIT, acts).stores.hist.entries|
    ensures
      var s := Run(cfg, INIT, acts).stores;
      var a, b := s.hist.entries[i], s.hist.entries[j];
      (a.conv, a.tool) in cfg.sensitive && (b.conv, b.tool) in cfg.sensitive && a.callId != NO_ID ==>
        a.approval != b.approval
  {
    var s := Run(cfg, INIT, acts).stores;
    var a, b := s.hist.entries[i], s.hist.entries[j];
    if (a.conv, a.tool) in cfg.sensitive && (b.conv, b.tool) in cfg.sensitive && a.callId != NO_ID {
      SensitiveCallsWereApproved(cfg, acts, i);
      SensitiveCallsWereApproved(cfg, acts, j);
      ExecutorsEnteredOnce(cfg, acts, i, j);
    }
  }

  /**
   An approval is completed only by an attempt that committed its conversation's turn: the token that
   completed it was issued for this approval, and the commits hold one made by that very attempt.
   */
  lemma {:induction false} CompletedMeansCommitted(cfg: Config, acts: seq<Action>, id: Id)
    requires id in Run(cfg, INIT, acts).stores.approvals.approvals
    requires Run(cfg, INIT, acts).stores.approvals.approvals[id].exec == A.Completed
    ensures
      var s := Run(cfg, INIT, acts).stores;
      && id in s.hist.completedBy && s.hist.completedBy[id] in s.hist.attempts
      && s.hist.attempts[s.hist.completedBy[id]].approvalId == id
      && AttemptCommitted(s, s.approvals.approvals[id].conversationId, s.hist.completedBy[id])
  {
    RunKeepsInv(cfg, INIT, acts);
  }

  /** Two workers never hold the same execution token. */
  lemma {:induction false} TokensNameOneWorker(cfg: Config, acts: seq<Action>, n: nat, m: nat)
    requires n in Run(cfg, INIT, acts).workers && m in Run(cfg, INIT, acts).workers
    requires Run(cfg, INIT, acts).workers[n].exec == Run(cfg, INIT, acts).workers[m].exec != A.NO_TOKEN
    ensures n == m
  {
    RunKeepsInv(cfg, INIT, acts);
    var sys := Run(cfg, INIT, acts);
    assert WorkerOk(cfg, sys.stores, n, sys.workers[n]) && WorkerOk(cfg, sys.stores, m, sys.workers[m]);
  }

  /** Each conversation's log is the messages of its committed turns, in order, under strictly increasing revisions. */
  lemma {:induction false} LogIsCommittedTurns(cfg: Config, acts: seq<Action>, conv: Id)
    ensures
      var s := Run(cfg, INIT, acts).stores;
      && T.MessagesOf(s.turns, conv) == LogOf(s.hist.commits, conv)
      && forall i, j :: 0 <= i < j < |s.hist.commits| && s.hist.commits[i].conv == s.hist.commits[j].conv ==>
           Revision(s.hist.commits[i]) < Revision(s.hist.commits[j])
  {
    RunKeepsInv(cfg, INIT, acts);
  }

  /** A run only adds to the ledger, the entered executors and the commits, and never withdraws an approval. */
  lemma {:induction false} RunGrows(cfg: Config, sys: Sys, acts: seq<Action>)
    requires Inv(cfg, sys)
    ensures Grows(sys.stores, Run(cfg, sys, acts).stores)
    decreases |acts|
  {
    if acts != [] {
      NextKeepsInv(cfg, sys, acts[0]);
      RunGrows(cfg, Next(cfg, sys, acts[0]), acts[1..]);
      GrowsTransitive(sys.stores, Next(cfg, sys, acts[0]).stores, Run(cfg, sys, acts).stores);
    }
  }

  lemma {:induction false} GrowsTransitive(s: Stores, s': Stores, s'': Stores)
    requires Grows(s, s') && Grows(s', s'')
    ensures Grows(s, s'')
  {
    forall id | id in s.approvals.approvals
      ensures id in s''.approvals.approvals && SameAsk(s.approvals.approvals[id], s''.approvals.approvals[id])
    {
      assert SameAsk(s.approvals.approvals[id], s'.approvals.approvals[id]);
    }
    forall i | i in s.ledger
      ensures i in s''.ledger && SameRow(s.ledger[i], s''.ledger[i])
    {
      assert SameRow(s.ledger[i], s'.ledger[i]);
    }
  }
}
