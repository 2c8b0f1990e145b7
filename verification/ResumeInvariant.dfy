/** The invariant of the approval-resume protocol, and what the growth of the stores keeps of it. */
module ResumeInvariant {
  import opened Prelude
  import A = Approvals
  import AR = ApprovalRuns
  import T = Turns
  import TR = TurnRuns
  import L = ToolLedger
  import opened ResumeProtocol

  // ---- what an action never takes back ----

  predicate SameAsk(a: A.Approval, b: A.Approval) {
    && a.conversationId == b.conversationId && a.action == b.action && a.payload == b.payload
    && (a.status == A.Approved ==> b.status == A.Approved)
  }

  predicate SameRow(a: L.Invocation, b: L.Invocation) {
    a.conversationId == b.conversationId && a.toolCallId == b.toolCallId
  }

  ghost predicate ApprovalsGrow(s: A.Store<Payload>, s': A.Store<Payload>) {
    && s.issued <= s'.issued
    && forall id :: id in s.approvals ==> id in s'.approvals && SameAsk(s.approvals[id], s'.approvals[id])
  }

  ghost predicate LedgerGrows(s: L.Store, s': L.Store) {
    forall i :: i in s ==> i in s' && SameRow(s[i], s'[i])
  }

  ghost predicate HistoryGrows(h: History, h': History) {
    && (forall t :: t in h.attempts ==> t in h'.attempts && h'.attempts[t] == h.attempts[t])
    && (forall id :: id in h.asked ==> id in h'.asked && h'.asked[id] == h.asked[id])
    && (forall i :: i in h.rowOwner ==> i in h'.rowOwner && h'.rowOwner[i] == h.rowOwner[i])
    && h.commits <= h'.commits && h.entries <= h'.entries
  }

  ghost predicate Grows(s: Stores, s': Stores) {
    ApprovalsGrow(s.approvals, s'.approvals) && LedgerGrows(s.ledger, s'.ledger) && HistoryGrows(s.hist, s'.hist)
  }

  // ---- what holds of one worker ----

  // The interrupted call is the one its approval was created for: the action and payload the approver sees.
  predicate InfoOk(s: Stores, conv: Id, info: Info) {
    && info.conv == conv
    && info.approvalId in s.approvals.approvals
    && info.approvalId in s.hist.asked && s.hist.asked[info.approvalId] == info.callId
    && var a := s.approvals.approvals[info.approvalId];
       a.conversationId == conv && a.action == info.tool && a.payload == info.args
  }

  predicate PayloadOk(s: Stores, conv: Id, id: Id, p: Payload) {
    && (forall k :: k in p.data ==> InfoOk(s, conv, p.data[k]))
    && (p.interruptId in p.data ==> p.data[p.interruptId].approvalId == id)
  }

  // A call about to run: a sensitive one was approved, with this very tool, input and call id, for this conversation.
  predicate CallOk(cfg: Config, s: Stores, conv: Id, call: Call) {
    (conv, call.tool) in cfg.sensitive ==>
      && call.approval.Some? && call.approval.value in s.approvals.approvals
      && call.approval.value in s.hist.asked && s.hist.asked[call.approval.value] == call.callId
      && var a := s.approvals.approvals[call.approval.value];
         a.status == A.Approved && a.conversationId == conv && a.action == call.tool && a.payload == call.args
  }

  // A call let through by an approval runs in the resume of that approval.
  predicate OwnCall(w: Worker, call: Call) {
    call.approval.Some? ==> w.kind == Resume(call.approval.value)
  }

  // The attempt that holds this execution token committed its turn.
  ghost predicate AttemptCommitted(s: Stores, conv: Id, exec: A.Token) {
    exists i :: 0 <= i < |s.hist.commits| && s.hist.commits[i].attempt == Some(exec) && s.hist.commits[i].conv == conv
  }

  predicate Distinct(raised: seq<Raised>) {
    forall i, j :: 0 <= i < j < |raised| ==> raised[i].interruptId != raised[j].interruptId
  }

  // The worker's identity: what its execution token, its checkpoint and its interrupts stand for.
  ghost predicate BaseOk(s: Stores, n: nat, w: Worker) {
    && (w.exec != A.NO_TOKEN ==>
          && w.kind.Resume?
          && w.exec in s.hist.attempts && s.hist.attempts[w.exec] == Attempt(n, w.kind.approvalId)
          && w.kind.approvalId in s.approvals.approvals
          && s.approvals.approvals[w.kind.approvalId].status == A.Approved
          && s.approvals.approvals[w.kind.approvalId].conversationId == w.conv)
    && (w.kind.Resume? ==> PayloadOk(s, w.conv, w.kind.approvalId, w.checkpoint))
    && (forall i :: 0 <= i < |w.raised| ==> InfoOk(s, w.conv, w.raised[i].info))
    && Distinct(w.raised)
  }

  ghost predicate RowOk(cfg: Config, s: Stores, n: nat, conv: Id, call: Call, inv: Id) {
    cfg.audited ==>
      && inv in s.ledger && s.ledger[inv].conversationId == conv && s.ledger[inv].toolCallId == call.callId
      && inv in s.hist.rowOwner && s.hist.rowOwner[inv] == n
      && forall i :: 0 <= i < |s.hist.entries| ==> s.hist.entries[i].inv != inv
  }

  // The worker's program counter: every turn is left for a waiting status, a resume that got past its claim
  // holds a token, and one that is about to complete its approval has committed its turn.
  ghost predicate PhaseOk(cfg: Config, s: Stores, n: nat, w: Worker) {
    && w.releaseStatus != T.Running
    && (w.kind.Resume? ==> w.phase.BeginPhase? || w.phase.Gone? || w.exec != A.NO_TOKEN)
    && match w.phase
       case LedgerPhase(call) => CallOk(cfg, s, w.conv, call) && OwnCall(w, call)
       case EnterPhase(call, inv) => CallOk(cfg, s, w.conv, call) && OwnCall(w, call)
         && RowOk(cfg, s, n, w.conv, call, inv)
       case PersistPhase(todo) => forall i :: 0 <= i < |todo| ==> todo[i] in w.raised
       case CommitPhase(_, next) => next != T.Running
       case TurnExit => w.kind.Resume? && w.ret != RetErr ==> AttemptCommitted(s, w.conv, w.exec)
       case ApprovalExit => w.kind.Resume? && (w.ret != RetErr ==> AttemptCommitted(s, w.conv, w.exec))
       case SettlePhase => w.kind.Resume? && (w.ret != RetErr ==> AttemptCommitted(s, w.conv, w.exec))
       case BeginPhase => w.kind.Resume?
       case _ => true
  }

  ghost predicate WorkerOk(cfg: Config, s: Stores, n: nat, w: Worker) {
    BaseOk(s, n, w) && PhaseOk(cfg, s, n, w)
  }

  lemma {:induction false} GrowthKeepsInfo(s: Stores, s': Stores, conv: Id, info: Info)
    requires Grows(s, s') && InfoOk(s, conv, info)
    ensures InfoOk(s', conv, info)
  {
  }

  lemma {:induction false} GrowthKeepsPayload(s: Stores, s': Stores, conv: Id, id: Id, p: Payload)
    requires Grows(s, s') && PayloadOk(s, conv, id, p)
    ensures PayloadOk(s', conv, id, p)
  {
    forall k | k in p.data
      ensures InfoOk(s', conv, p.data[k])
    {
      GrowthKeepsInfo(s, s', conv, p.data[k]);
    }
  }

  lemma {:induction false} GrowthKeepsCall(cfg: Config, s: Stores, s': Stores, conv: Id, call: Call)
    requires Grows(s, s') && CallOk(cfg, s, conv, call)
    ensures CallOk(cfg, s', conv, call)
  {
  }

  lemma {:induction false} GrowthKeepsCommitted(s: Stores, s': Stores, conv: Id, exec: A.Token)
    requires Grows(s, s') && AttemptCommitted(s, conv, exec)
    ensures AttemptCommitted(s', conv, exec)
  {
    var i :| 0 <= i < |s.hist.commits| && s.hist.commits[i].attempt == Some(exec) && s.hist.commits[i].conv == conv;
    assert s'.hist.commits[i] == s.hist.commits[i];
  }

  // A worker keeps its identity when the stores grow and it moves on with the same token, checkpoint and interrupts.
  lemma {:induction false} GrowthKeepsBase(s: Stores, s': Stores, n: nat, w: Worker, w': Worker)
    requires Grows(s, s') && BaseOk(s, n, w)
    requires w'.kind == w.kind && w'.conv == w.conv && w'.exec == w.exec && w'.checkpoint == w.checkpoint
        && w'.raised == w.raised
    ensures BaseOk(s', n, w')
  {
    if w.kind.Resume? {
      GrowthKeepsPayload(s, s', w.conv, w.kind.approvalId, w.checkpoint);
    }
    forall i | 0 <= i < |w.raised|
      ensures InfoOk(s', w.conv, w.raised[i].info)
    {
      GrowthKeepsInfo(s, s', w.conv, w.raised[i].info);
    }
  }

  // Other workers are not disturbed: all they rely on only grows, and nobody enters a row they own.
  lemma {:induction false} GrowthKeepsWorker(cfg: Config, s: Stores, s': Stores, n: nat, w: Worker)
    requires Grows(s, s') && WorkerOk(cfg, s, n, w)
    requires s'.hist.entries == s.hist.entries
      || exists e :: s'.hist.entries == s.hist.entries + [e] && (cfg.audited ==>
          e.inv in s.hist.rowOwner && s.hist.rowOwner[e.inv] != n)
    ensures WorkerOk(cfg, s', n, w)
  {
    GrowthKeepsBase(s, s', n, w, w);
    match w.phase
    case LedgerPhase(call) => GrowthKeepsCall(cfg, s, s', w.conv, call);
    case EnterPhase(call, inv) => GrowthKeepsCall(cfg, s, s', w.conv, call);
    case _ => if AttemptCommitted(s, w.conv, w.exec) { GrowthKeepsCommitted(s, s', w.conv, w.exec); }
  }

  // ---- the invariant of the system ----

  ghost predicate StoresOk(s: Stores) {
    && AR.Inv(s.approvals) && TR.Inv(s.turns) && L.CallsOnce(s.ledger)
    && (forall t :: t in s.hist.attempts ==> A.NO_TOKEN < t <= s.approvals.issued)
    && (forall id :: id in s.hist.asked ==> id in s.approvals.approvals)
    && (forall i :: i in s.hist.rowOwner ==> i in s.ledger)
  }

  ghost predicate CheckpointsOk(s: Stores) {
    forall id :: id in s.approvals.checkpoints ==>
      PayloadOk(s, s.approvals.checkpoints[id].conversationId, id, s.approvals.checkpoints[id].state)
  }

  ghost predicate WorkersOk(cfg: Config, s: Stores, workers: map<nat, Worker>) {
    forall n :: n in workers ==> WorkerOk(cfg, s, n, workers[n])
  }

  ghost predicate EntryOk(cfg: Config, s: Stores, e: Entry) {
    && CallOk(cfg, s, e.conv, Call(e.tool, e.args, e.callId, e.approval))
    && ((e.conv, e.tool) in cfg.sensitive ==>
        e.exec in s.hist.attempts && s.hist.attempts[e.exec].approvalId == e.approval.value)
    && (cfg.audited ==>
          && e.inv in s.ledger && s.ledger[e.inv].conversationId == e.conv && s.ledger[e.inv].toolCallId == e.callId
          && e.inv in s.hist.rowOwner)
  }

  ghost predicate EntriesOk(cfg: Config, s: Stores) {
    && (forall i :: 0 <= i < |s.hist.entries| ==> EntryOk(cfg, s, s.hist.entries[i]))
    && (cfg.audited ==>
          forall i, j :: 0 <= i < j < |s.hist.entries| ==> s.hist.entries[i].inv != s.hist.entries[j].inv)
  }

  ghost predicate CompletedOk(s: Stores) {
    forall id :: id in s.approvals.approvals && s.approvals.approvals[id].exec == A.Completed ==>
      && id in s.hist.completedBy
      && s.hist.completedBy[id] in s.hist.attempts && s.hist.attempts[s.hist.completedBy[id]].approvalId == id
      && AttemptCommitted(s, s.approvals.approvals[id].conversationId, s.hist.completedBy[id])
  }

  // The messages of one conversation, as the committed turns appended them.
  function LogOf(commits: seq<Committed>, conv: Id): seq<T.Message> {
    if commits == [] then []
    else
      var last := commits[|commits| - 1];
      LogOf(commits[..|commits| - 1], conv) + (if last.conv == conv then last.messages else [])
  }

  // The revision of the turn a commit was made in; no commit is made outside a turn.
  function Revision(c: Committed): nat {
    match c.turn
    case NoTurn => 0
    case TurnToken(_, revision) => revision
  }

  ghost predicate CommitsOk(s: Stores) {
    && (forall i :: 0 <= i < |s.hist.commits| ==>
          s.hist.commits[i].turn != T.NoTurn && Revision(s.hist.commits[i]) < TR.Floor(s.turns, s.hist.commits[i].conv))
    && (forall i, j :: 0 <= i < j < |s.hist.commits| && s.hist.commits[i].conv == s.hist.commits[j].conv ==>
          Revision(s.hist.commits[i]) < Revision(s.hist.commits[j]))
    && (forall conv :: T.MessagesOf(s.turns, conv) == LogOf(s.hist.commits, conv))
  }

  ghost predicate Inv(cfg: Config, sys: Sys) {
    var s := sys.stores;
    StoresOk(s) && CheckpointsOk(s) && WorkersOk(cfg, s, sys.workers) && EntriesOk(cfg, s) && CompletedOk(s)
      && CommitsOk(s)
  }

  // ---- the data of a checkpoint ----

  lemma {:induction false} DataOfHolds(s: Stores, conv: Id, raised: seq<Raised>)
    requires forall i :: 0 <= i < |raised| ==> InfoOk(s, conv, raised[i].info)
    ensures forall k :: k in DataOf(raised) ==> InfoOk(s, conv, DataOf(raised)[k])
  {
    if raised != [] {
      DataOfHolds(s, conv, raised[..|raised| - 1]);
      assert InfoOk(s, conv, raised[|raised| - 1].info);
    }
  }

  // The interrupt a checkpoint names is the one raised for the approval it is saved under.
  lemma {:induction false} DataOfNames(raised: seq<Raised>, i: nat)
    requires i < |raised| && Distinct(raised)
    ensures raised[i].interruptId in DataOf(raised) && DataOf(raised)[raised[i].interruptId] == raised[i].info
  {
    if i < |raised| - 1 {
      DataOfNames(raised[..|raised| - 1], i);
      assert raised[..|raised| - 1][i] == raised[i];
    }
  }

  lemma {:induction false} DataOfHasAll(raised: seq<Raised>, i: nat)
    requires i < |raised|
    ensures raised[i].interruptId in DataOf(raised)
  {
    if i < |raised| - 1 {
      DataOfHasAll(raised[..|raised| - 1], i);
      assert raised[..|raised| - 1][i] == raised[i];
    }
  }
}
