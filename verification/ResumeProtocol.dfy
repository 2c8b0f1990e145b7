/**
 The approval-resume protocol as a state machine.

 Any number of workers run Chat and Resume over the shared stores.  One action is one store call of one
 worker (or the purely local work between two of them), a heartbeat, a human decision, or the clock.  A
 worker may crash, lose a lease or stall between any two of its calls, and a call may report an error that the
 store did not mean, with or without having taken effect.  The agent framework is an oracle:
 an action says which tool call it makes next, or whether the run ends in an answer, an interrupt or an
 error.  An action that is not enabled changes nothing, so a run is any list of actions.
 */
module ResumeProtocol {
  import opened Prelude
  import A = Approvals
  import T = Turns
  import L = ToolLedger
  import Text

  // ---- what the framework keeps about an interrupted call ----

  // The interrupted call and the approval created for it.
  datatype Info = Info(approvalId: Id, conv: Id, tool: string, args: string, callId: Id)

  datatype Raised = Raised(interruptId: nat, info: Info)

  // A persisted checkpoint: the framework's own data, holding every call interrupted in the run, and the
  // interrupt this checkpoint will resume.
  datatype Payload = Payload(interruptId: nat, data: map<nat, Info>)

  const NO_PAYLOAD := Payload(0, map[])

  // ---- workers ----

  datatype Kind = Chat(user: string) | Resume(approvalId: Id)
  datatype Ret = RetNil | RetAwait | RetErr
  datatype Beat = Off | Beating | Lost

  datatype Call = Call(tool: string, args: string, callId: Id, approval: Option<Id>)

  datatype Phase =
    | BeginPhase                                                // Resume: before BeginExecution
    | ClaimPhase                                                // before ClaimConversationTurn
    | LoadPhase                                                 // before the checkpoint or the history is read
    | RunPhase                                                  // inside the framework run
    | LedgerPhase(call: Call)                                   // executeGovernedTool, before the ledger row
    | EnterPhase(call: Call, inv: Id)                       // before the tool's executor
    | ClosePhase(inv: Id)                                   // after it, before the row is closed
    | PersistPhase(todo: seq<Raised>)                           // persistApprovalInterrupts
    | CommitPhase(batch: seq<T.Message>, next: T.ConvStatus)    // before CommitConversationTurn
    | TurnExit                                                  // deferred: stop the turn heartbeat, release
    | ApprovalExit                                              // deferred: stop the approval heartbeat
    | SettlePhase                                               // deferred: complete or fail the execution
    | Gone                                                      // returned or crashed

  datatype Worker = Worker(
    kind: Kind,
    conv: Id,
    phase: Phase,
    exec: A.Token,
    turn: T.TurnToken,
    finalized: bool,
    ret: Ret,
    releaseStatus: T.ConvStatus,
    approvalBeat: Beat,
    turnBeat: Beat,
    checkpoint: Payload,
    raised: seq<Raised>)

  // ---- the system ----

  // History, read by no step: which executor was entered under which execution token, which turn committed,
  // who completed an approval, and the id of the tool call each approval was created for.
  datatype Entry = Entry(conv: Id, tool: string, args: string, callId: Id, approval: Option<Id>, inv: Id, exec: A.Token)
  datatype Attempt = Attempt(worker: nat, approvalId: Id)
  datatype Committed = Committed(conv: Id, turn: T.TurnToken, attempt: Option<A.Token>, messages: seq<T.Message>,
      next: T.ConvStatus)

  datatype History = History(
    entries: seq<Entry>,
    commits: seq<Committed>,
    attempts: map<A.Token, Attempt>,
    completedBy: map<Id, A.Token>,
    asked: map<Id, Id>,
    rowOwner: map<Id, nat>)

  datatype Stores = Stores(now: int, approvals: A.Store<Payload>, turns: T.Store, ledger: L.Store, hist: History)

  datatype Sys = Sys(stores: Stores, workers: map<nat, Worker>)

  // `sensitive` holds (conversation, tool) pairs: a conversation is pinned to one agent version, and its
  // tools' policies with it.  `audited` says whether the engine was given a tool ledger.
  datatype Config = Config(sensitive: set<(Id, string)>, audited: bool)

  const INIT := Sys(Stores(0, A.Empty(), T.Empty(), map[], History([], [], map[], map[], map[], map[])), map[])

  // ---- actions ----

  datatype Choice =
    | Proceed
    | Skip
    | GoWrong
    | CallTool(tool: string, args: string, callId: Id, workspaceId: Id, approvalId: Id, interruptId: nat)
    | RerunTool(stored: nat, interruptId: nat)
    | WriteRow(inv: Id)
    | CloseRow(result: string, status: L.RunStatus, latencyMS: int, error: string)
    | EndInterrupted
    | EndAnswer(answer: string)

  datatype Action =
    | Tick(elapsed: nat)
    | NewConversation(conv: Id)
    | StartChat(worker: nat, conv: Id, user: string)
    | StartResume(worker: nat, conv: Id, approvalId: Id)
    | Decide(approvalId: Id, workspaceId: Id, verdict: A.Status, approver: Id, frees: bool)
    | Advance(worker: nat, choice: Choice)
    | Stumble(worker: nat, choice: Choice, effect: bool)
    | BeatApproval(worker: nat)
    | BeatTurn(worker: nat)
    | MissApproval(worker: nat, effect: bool)
    | MissTurn(worker: nat, effect: bool)
    | Crash(worker: nat)

  function NewWorker(kind: Kind, conv: Id, phase: Phase): Worker {
    Worker(kind, conv, phase, A.NO_TOKEN, T.NoTurn, false, RetErr,
           if kind.Chat? then T.Active else T.AwaitingApproval, Off, Off, NO_PAYLOAD, [])
  }

  // ---- one step of a worker: the stores after it, and the worker ----

  function StepBegin(s: Stores, n: nat, w: Worker): (Stores, Worker)
    requires w.kind.Resume?
  {
    var (store, r) := A.BeginExecution(s.approvals, w.kind.approvalId, w.conv, s.now);
    if r.Err? then (s, w.(phase := Gone))
    else
      var hist := s.hist.(attempts := s.hist.attempts[r.value := Attempt(n, w.kind.approvalId)]);
      (s.(approvals := store, hist := hist), w.(phase := ClaimPhase, exec := r.value, approvalBeat := Beating))
  }

  function StepClaim(s: Stores, w: Worker): (Stores, Worker) {
    var (store, r) := T.Claim(s.turns, w.conv, w.kind.Resume?, s.now);
    if r.None? then (s, w.(phase := if w.kind.Resume? then ApprovalExit else Gone, ret := RetErr))
    else (s.(turns := store),
      w.(phase := LoadPhase, turn := r.value, turnBeat := if w.kind.Resume? then Beating else Off))
  }

  // The body has returned: its result, and the deferred steps still to run.
  function Return(w: Worker, ret: Ret): Worker {
    w.(phase := TurnExit, ret := ret)
  }

  function StepLoad(s: Stores, w: Worker): Worker {
    match w.kind
    case Chat(_) => w.(phase := RunPhase, turnBeat := Beating)
    case Resume(approvalId) =>
      var r := A.CheckpointForApproval(s.approvals, approvalId, w.conv);
      if r.Err? then Return(w, RetErr) else w.(phase := RunPhase, checkpoint := r.value)
  }

  function DataOf(raised: seq<Raised>): map<nat, Info> {
    if raised == [] then map[]
    else DataOf(raised[..|raised| - 1])[raised[|raised| - 1].interruptId := raised[|raised| - 1].info]
  }

  // A fresh tool call.  A sensitive one creates a pending approval and is interrupted; any other goes on to
  // the ledger.  The new approval and interrupt ids are drawn unused.
  function StepCall(cfg: Config, s: Stores, w: Worker, c: Choice): (Stores, Worker)
    requires c.CallTool?
  {
    if (w.conv, c.tool) !in cfg.sensitive then (s, w.(phase := LedgerPhase(Call(c.tool, c.args, c.callId, None))))
    else if c.approvalId == NO_ID || c.approvalId in s.approvals.approvals
      || c.interruptId in DataOf(w.raised) then (s, w)
    else
      var info := Info(c.approvalId, w.conv, c.tool, c.args, c.callId);
      var hist := s.hist.(asked := s.hist.asked[c.approvalId := c.callId]);
      var store := A.CreatePending(s.approvals, c.approvalId, c.workspaceId, w.conv, c.tool, c.args, s.now);
      (s.(approvals := store, hist := hist), w.(raised := w.raised + [Raised(c.interruptId, info)]))
  }

  // A call interrupted in an earlier run is made again with the input it had.  It goes on only if it is the
  // one this resume targets; otherwise it is interrupted again under the approval it already has.
  function StepRerun(w: Worker, c: Choice): Worker
    requires c.RerunTool?
  {
    if w.kind.Chat? || c.stored !in w.checkpoint.data then w
    else
      var info := w.checkpoint.data[c.stored];
      if c.stored == w.checkpoint.interruptId then
        w.(phase := LedgerPhase(Call(info.tool, info.args, info.callId, Some(w.kind.approvalId))))
      else if c.interruptId in DataOf(w.raised) then w
      else w.(raised := w.raised + [Raised(c.interruptId, info)])
  }

  function StepEnd(w: Worker, c: Choice): Worker {
    match c
    case EndInterrupted => if w.raised == [] then w else w.(phase := PersistPhase(w.raised))
    case EndAnswer(answer) =>
      if Text.TrimSpace(answer) == "" then Return(w, RetErr)
      else
        var said := T.Message(T.Assistant, answer);
        w.(phase := CommitPhase(if w.kind.Chat? then [T.Message(T.User, w.kind.user), said] else [said], T.Active))
    case _ => w
  }

  function StepRun(cfg: Config, s: Stores, w: Worker, c: Choice): (Stores, Worker) {
    if c.CallTool? then StepCall(cfg, s, w, c)
    else if c.RerunTool? then (s, StepRerun(w, c))
    else (s, StepEnd(w, c))
  }

  ghost function StepLedger(cfg: Config, s: Stores, n: nat, w: Worker, call: Call, inv: Id): (Stores, Worker) {
    if !cfg.audited then (s, w.(phase := EnterPhase(call, NO_ID)))
    else if inv in s.ledger then (s, w)
    else
      var row := L.Invocation(w.conv, call.callId, NO_ID, call.args, "", L.InvocationRunning, 0, "");
      var (ledger, ok) := L.CreateInvocation(s.ledger, inv, row);
      if !ok then (s, w.(phase := RunPhase))
      else (s.(ledger := ledger, hist := s.hist.(rowOwner := s.hist.rowOwner[inv := n])),
        w.(phase := EnterPhase(call, inv)))
  }

  function StepEnter(s: Stores, w: Worker, call: Call, inv: Id): (Stores, Worker) {
    var entry := Entry(w.conv, call.tool, call.args, call.callId, call.approval, inv, w.exec);
    (s.(hist := s.hist.(entries := s.hist.entries + [entry])), w.(phase := ClosePhase(inv)))
  }

  function StepClose(cfg: Config, s: Stores, w: Worker, inv: Id, c: Choice): (Stores, Worker) {
    if cfg.audited && c.CloseRow? then
      (s.(ledger := L.CompleteInvocation(s.ledger, inv, c.result, c.status, c.latencyMS, c.error).0),
        w.(phase := RunPhase))
    else if c.CloseRow? || c.Skip? then (s, w.(phase := RunPhase))
    else (s, w)
  }

  function StepPersist(s: Stores, w: Worker, todo: seq<Raised>, skip: bool): (Stores, Worker) {
    if todo == [] then
      var batch := if w.kind.Chat? then [T.Message(T.User, w.kind.user)] else [];
      (s, w.(phase := CommitPhase(batch, T.AwaitingApproval), releaseStatus := T.AwaitingApproval))
    else if skip then (s, w.(phase := PersistPhase(todo[1..])))
    else
      var payload := Payload(todo[0].interruptId, DataOf(w.raised));
      var (store, r) := A.SaveCheckpoint(s.approvals, todo[0].info.approvalId, w.conv, payload);
      if r.Err? then (s, Return(w, RetErr)) else (s.(approvals := store), w.(phase := PersistPhase(todo[1..])))
  }

  function AllPresent(messages: seq<T.Message>): (r: seq<Option<T.Message>>)
    ensures T.Present(r) == messages
  {
    if messages == [] then [] else [Some(messages[0])] + AllPresent(messages[1..])
  }

  function StepCommit(s: Stores, w: Worker, batch: seq<T.Message>, next: T.ConvStatus): (Stores, Worker) {
    var (store, ok) := T.Commit(s.turns, w.conv, w.turn, AllPresent(batch), next);
    if !ok then (s, Return(w, RetErr))
    else
      var commit := Committed(w.conv, w.turn, if w.kind.Resume? then Some(w.exec) else None, batch, next);
      (s.(turns := store, hist := s.hist.(commits := s.hist.commits + [commit])),
       Return(w, if next == T.AwaitingApproval then RetAwait else RetNil).(finalized := true))
  }

  // A heartbeat told to stop; one that was refused has stopped already.
  function Stopped(beat: Beat): Beat {
    if beat == Lost then Lost else Off
  }

  // The worker after its turn, whether or not the release was accepted.
  function LeaveTurn(w: Worker): Worker {
    w.(phase := if w.kind.Resume? then ApprovalExit else Gone,
       ret := if w.turnBeat == Lost && w.ret == RetNil then RetErr else w.ret,
       turnBeat := Stopped(w.turnBeat))
  }

  function StepTurnExit(s: Stores, w: Worker): (Stores, Worker) {
    (s.(turns := if w.finalized then s.turns else T.Release(s.turns, w.conv, w.turn, w.releaseStatus).0), LeaveTurn(w))
  }

  function StepApprovalExit(w: Worker): Worker {
    w.(phase := SettlePhase, approvalBeat := Stopped(w.approvalBeat),
       ret := if w.approvalBeat == Lost && w.ret == RetNil then RetErr else w.ret)
  }

  function StepSettle(s: Stores, w: Worker): Stores
    requires w.kind.Resume?
  {
    var id := w.kind.approvalId;
    if w.ret == RetErr then s.(approvals := A.FailExecution(s.approvals, id, w.exec, "", s.now).0)
    else
      var (store, r) := A.CompleteExecution(s.approvals, id, w.exec, s.now);
      if r.Err? then s
      else s.(approvals := store, hist := s.hist.(completedBy := s.hist.completedBy[id := w.exec]))
  }

  // GoWrong is an error anywhere inside the body that is not a store call's refusal.
  predicate CanGoWrong(w: Worker) {
    w.phase.LoadPhase? || w.phase.RunPhase? || w.phase.PersistPhase?
  }

  ghost function StepWorker(cfg: Config, s: Stores, n: nat, w: Worker, c: Choice): (Stores, Worker) {
    if c.GoWrong? && CanGoWrong(w) then (s, Return(w, RetErr))
    else
      match w.phase
      case BeginPhase => if w.kind.Resume? then StepBegin(s, n, w) else (s, w)
      case ClaimPhase => StepClaim(s, w)
      case LoadPhase => (s, StepLoad(s, w))
      case RunPhase => StepRun(cfg, s, w, c)
      case LedgerPhase(call) => if c.WriteRow? then StepLedger(cfg, s, n, w, call, c.inv) else (s, w)
      case EnterPhase(call, inv) => StepEnter(s, w, call, inv)
      case ClosePhase(inv) => StepClose(cfg, s, w, inv, c)
      case PersistPhase(todo) => StepPersist(s, w, todo, c.Skip?)
      case CommitPhase(batch, next) => StepCommit(s, w, batch, next)
      case TurnExit => StepTurnExit(s, w)
      case ApprovalExit => (s, StepApprovalExit(w))
      case SettlePhase => if w.kind.Resume? then (StepSettle(s, w), w.(phase := Gone)) else (s, w)
      case Gone => (s, w)
  }

  // ---- calls that report an error although the store did not refuse them ----

  predicate CallsStore(w: Worker) {
    || w.phase.BeginPhase? || w.phase.ClaimPhase? || w.phase.LedgerPhase? || w.phase.PersistPhase?
    || w.phase.CommitPhase? || w.phase.TurnExit? || w.phase.SettlePhase?
  }

  // Where the worker goes on when its store call reports an error.  A failed release is ignored.
  function AfterError(w: Worker): Worker
    requires CallsStore(w)
  {
    match w.phase
    case ClaimPhase => w.(phase := if w.kind.Resume? then ApprovalExit else Gone, ret := RetErr)
    case LedgerPhase(_) => w.(phase := RunPhase)
    case PersistPhase(_) => Return(w, RetErr)
    case CommitPhase(_, _) => Return(w, RetErr)
    case TurnExit => LeaveTurn(w)
    case _ => w.(phase := Gone)
  }

  // The call may have taken effect all the same, or not.
  ghost function StepStumble(cfg: Config, s: Stores, n: nat, w: Worker, c: Choice, effect: bool): (Stores, Worker) {
    if !CallsStore(w) then (s, w) else (if effect then StepWorker(cfg, s, n, w, c).0 else s, AfterError(w))
  }

  function StepMissApproval(s: Stores, w: Worker, effect: bool): (Stores, Worker) {
    if w.kind.Chat? || w.approvalBeat != Beating then (s, w)
    else (if effect then StepBeatApproval(s, w).0 else s, w.(approvalBeat := Lost))
  }

  function StepMissTurn(s: Stores, w: Worker, effect: bool): (Stores, Worker) {
    if w.turnBeat != Beating then (s, w)
    else (if effect then StepBeatTurn(s, w).0 else s, w.(turnBeat := Lost))
  }

  // ---- heartbeats, decisions ----

  function StepBeatApproval(s: Stores, w: Worker): (Stores, Worker) {
    if w.kind.Chat? || w.approvalBeat != Beating then (s, w)
    else
      var (store, r) := A.RenewExecution(s.approvals, w.kind.approvalId, w.exec, s.now);
      if r.Err? then (s, w.(approvalBeat := Lost)) else (s.(approvals := store), w)
  }

  function StepBeatTurn(s: Stores, w: Worker): (Stores, Worker) {
    if w.turnBeat != Beating then (s, w)
    else
      var (store, ok) := T.Renew(s.turns, w.conv, w.turn, s.now);
      if !ok then (s, w.(turnBeat := Lost)) else (s.(turns := store), w)
  }

  // A human decision.  In the database a rejection also frees a conversation that is waiting for approval; in
  // memory nothing does.
  function StepDecide(s: Stores, id: Id, workspaceId: Id, verdict: A.Status, approver: Id, frees: bool): Stores {
    if verdict == A.Pending then s
    else
      var (store, r) := A.ResolvePending(s.approvals, id, workspaceId, verdict, approver, s.now);
      if r.Err? then s
      else
        var conv := r.value.conversationId;
        var free := frees && verdict == A.Rejected && conv in s.turns.status
          && s.turns.status[conv] == T.AwaitingApproval;
        s.(approvals := store, turns := if free then s.turns.(status := s.turns.status[conv := T.Active]) else s.turns)
  }

  // ---- the system's step ----

  // The actions of one worker.
  ghost function StepActor(cfg: Config, s: Stores, n: nat, w: Worker, a: Action): (Stores, Worker) {
    match a
    case Advance(_, c) => StepWorker(cfg, s, n, w, c)
    case BeatApproval(_) => StepBeatApproval(s, w)
    case BeatTurn(_) => StepBeatTurn(s, w)
    case Stumble(_, c, effect) => StepStumble(cfg, s, n, w, c, effect)
    case MissApproval(_, effect) => StepMissApproval(s, w, effect)
    case MissTurn(_, effect) => StepMissTurn(s, w, effect)
    case Crash(_) => (s, w.(phase := Gone, approvalBeat := Off, turnBeat := Off))
    case _ => (s, w)
  }

  // The actions of everybody else.
  function StepWorld(s: Stores, a: Action): Stores {
    match a
    case Tick(elapsed) => s.(now := s.now + elapsed)
    case NewConversation(conv) =>
      if conv == NO_ID || conv in s.turns.status then s else s.(turns := T.CreateConversation(s.turns, conv))
    case Decide(id, workspaceId, verdict, approver, frees) => StepDecide(s, id, workspaceId, verdict, approver, frees)
    case _ => s
  }

  predicate OfActor(a: Action) {
    a.Advance? || a.Stumble? || a.BeatApproval? || a.BeatTurn? || a.MissApproval? || a.MissTurn? || a.Crash?
  }

  ghost function Next(cfg: Config, s: Sys, a: Action): Sys {
    if OfActor(a) then
      if a.worker !in s.workers then s
      else
        var (stores, w) := StepActor(cfg, s.stores, a.worker, s.workers[a.worker], a);
        Sys(stores, s.workers[a.worker := w])
    else if a.StartChat? || a.StartResume? then
      if a.worker in s.workers then s
      else
        var w := if a.StartChat? then NewWorker(Chat(a.user), a.conv, ClaimPhase)
            else NewWorker(Resume(a.approvalId), a.conv, BeginPhase);
        s.(workers := s.workers[a.worker := w])
    else s.(stores := StepWorld(s.stores, a))
  }

  ghost function Run(cfg: Config, s: Sys, acts: seq<Action>): Sys
    decreases |acts|
  {
    if acts == [] then s else Run(cfg, Next(cfg, s, acts[0]), acts[1..])
  }

  lemma {:induction false} RunConcat(cfg: Config, s: Sys, front: seq<Action>, back: seq<Action>)
    ensures Run(cfg, s, front + back) == Run(cfg, Run(cfg, s, front), back)
    decreases |front|
  {
    if front == [] {
      assert front + back == back;
    } else {
      assert (front + back)[1..] == front[1..] + back;
      RunConcat(cfg, Next(cfg, s, front[0]), front[1..], back);
    }
  }

  lemma {:induction false} RunOneMore(cfg: Config, s: Sys, acts: seq<Action>, a: Action)
    ensures Run(cfg, s, acts + [a]) == Next(cfg, Run(cfg, s, acts), a)
  {
    RunConcat(cfg, s, acts, [a]);
    assert [a][1..] == [];
  }

  // ---- the states of a run ----

  // The states the machine reaches from its start.
  ghost predicate Reaches(cfg: Config, s: Sys) {
    exists acts: seq<Action> :: Run(cfg, INIT, acts) == s
  }

  ghost function Reachable(cfg: Config): iset<Sys> {
    iset s: Sys | Reaches(cfg, s)
  }

  ghost predicate Closed(cfg: Config, states: iset<Sys>) {
    forall s, a :: s in states ==> Next(cfg, s, a) in states
  }

  lemma {:induction false} ReachableIsClosed(cfg: Config)
    ensures INIT in Reachable(cfg) && Closed(cfg, Reachable(cfg))
  {
    assert Run(cfg, INIT, []) == INIT;
    forall s, a | s in Reachable(cfg)
      ensures Next(cfg, s, a) in Reachable(cfg)
    {
      var acts :| Run(cfg, INIT, acts) == s;
      RunOneMore(cfg, INIT, acts, a);
      assert Run(cfg, INIT, acts + [a]) == Next(cfg, s, a);
    }
  }
}
