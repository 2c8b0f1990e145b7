/**
 The engine's Chat and Resume as programs over the three stores, in the order of their calls and deferred
 steps.  Each is proved to be a run of the machine of ResumeProtocol, so whatever is proved of every run holds
 of the stores it leaves behind; time may pass between any two calls.
 */
module Engine {
  import opened Prelude
  import A = Approvals
  import T = Turns
  import L = ToolLedger
  import Text
  import opened MemoryApprovals
  import opened MemoryTurns
  import opened MemoryTools
  import opened ModelRuns
  import opened ResumeProtocol
  import opened TurnEffects

  // util.GenerateID draws an id not in use.
  method FreshId(used: set<Id>) returns (id: Id)
    ensures id !in used && id != NO_ID
  {
    id := 1;
    var todo := used;
    while todo != {}
      invariant todo <= used && id > 0 && forall u :: u in used && u !in todo ==> u < id
      decreases |todo|
    {
      var u :| u in todo;
      if u >= id {
        id := u + 1;
      }
      todo := todo - {u};
    }
  }

  // The log of the conversation has these messages more.
  predicate Logs(before: T.Store, after: T.Store, conv: Id, batch: seq<T.Message>) {
    T.MessagesOf(after, conv) == T.MessagesOf(before, conv) + batch
  }

  // What a turn with this result adds to the log: nothing, what it began with, or that and the answer.
  function Logged(ret: Ret, said: seq<T.Message>, ending: Ending): seq<T.Message> {
    match ret
    case RetErr => []
    case RetAwait => said
    case RetNil => said + [T.Message(T.Assistant, if ending.Said? then ending.answer else "")]
  }

  // The heartbeats tick every 30 seconds.
  const BEAT: nat := 30_000_000_000

  class Engine {
    const cfg: Config
    const approvals: MemoryStore<Payload>
    const turns: MemoryAgentStore
    const tools: MemoryToolStore
    var now: int
    ghost const reached: iset<Sys>
    ghost var sys: Sys

    // The machine has reached a state with the stores this engine has.
    ghost predicate Valid()
      reads this, approvals, turns, tools
    {
      && Closed(cfg, reached) && sys in reached
      && sys.stores.now == now
      && sys.stores.approvals == approvals.State()
      && sys.stores.turns == turns.State()
      && sys.stores.ledger == tools.invocations
    }

    ghost predicate At(n: nat, w: Worker)
      reads this, approvals, turns, tools
    {
      Valid() && n in sys.workers && sys.workers[n] == w
    }

    constructor (cfg: Config)
      ensures Valid() && this.cfg == cfg && reached == Reachable(cfg)
      ensures fresh(approvals) && fresh(turns) && fresh(tools)
    {
      this.cfg := cfg;
      approvals := new MemoryStore();
      turns := new MemoryAgentStore();
      tools := new MemoryToolStore();
      now := 0;
      reached := Reachable(cfg);
      sys := INIT;
      ReachableIsClosed(cfg);
    }

    // The machine takes the step of the worker that the engine has just taken.
    ghost method Step(n: nat, w: Worker, c: Choice)
      requires Closed(cfg, reached) && sys in reached && n in sys.workers && sys.workers[n] == w
      modifies this`sys
      ensures sys in reached
      ensures sys.stores == StepWorker(cfg, old(sys.stores), n, w, c).0
      ensures n in sys.workers && sys.workers[n] == StepWorker(cfg, old(sys.stores), n, w, c).1
    {
      sys := Next(cfg, sys, Advance(n, c));
    }

    // Time passes.
    method Elapse(elapsed: nat)
      requires Valid()
      modifies this
      ensures Valid() && now == old(now) + elapsed
      ensures sys.workers == old(sys.workers) && sys.stores == old(sys.stores).(now := now)
    {
      now := now + elapsed;
      sys := Next(cfg, sys, Tick(elapsed));
    }

    // The ledger row of a call, if there is a ledger; a call it has seen before is refused.
    method BeginToolInvocation(n: nat, ghost w: Worker, conv: Id, call: Call) returns (inv: Id, ok: bool)
      requires At(n, w) && w.phase == LedgerPhase(call) && w.conv == conv
      modifies this, tools
      ensures At(n, w.(phase := if ok then EnterPhase(call, inv) else RunPhase)) && now == old(now)
      ensures sys.stores.hist.commits == old(sys.stores.hist.commits)
        && sys.stores.hist.entries == old(sys.stores.hist.entries)
      ensures !ok ==> sys.stores == old(sys.stores)
      ensures ok <==> !(cfg.audited && L.Duplicate(old(tools.invocations), OpenRow(conv, call)))
      ensures if cfg.audited && ok then inv !in old(tools.invocations)
                                        && tools.invocations == old(tools.invocations)[inv := OpenRow(conv, call)]
              else tools.invocations == old(tools.invocations)
      ensures !cfg.audited ==> inv == NO_ID
    {
      inv, ok := NO_ID, true;
      if cfg.audited {
        inv := FreshId(tools.invocations.Keys);
        ok := tools.CreateInvocation(inv, OpenRow(conv, call));
      }
      Step(n, w, WriteRow(inv));
    }

    // executeGovernedTool: the ledger row first, then the executor, then the row is closed.  A call the ledger
    // has seen before enters nothing.
    method ExecuteGovernedTool(n: nat, ghost w: Worker, conv: Id, call: Call, output: ToolResult)
      requires At(n, w) && w.phase == LedgerPhase(call) && w.conv == conv
      modifies this, tools
      ensures At(n, w.(phase := RunPhase)) && now == old(now)
      ensures sys.stores.hist.commits == old(sys.stores.hist.commits)
      ensures Governed(cfg, old(sys.stores), sys.stores, conv, call, w.exec, output)
    {
      var inv, ok := BeginToolInvocation(n, w, conv, call);
      if !ok {
        return;
      }
      Step(n, w.(phase := EnterPhase(call, inv)), Proceed);
      CloseToolInvocation(n, w.(phase := ClosePhase(inv)), inv, output);
      assert sys.stores.hist.entries == old(sys.stores.hist.entries) + [EntryOf(conv, call, inv, w.exec)];
      assert sys.stores.ledger == LedgerWith(cfg, old(sys.stores.ledger), inv, conv, call, output);
    }

    method CloseToolInvocation(n: nat, ghost w: Worker, inv: Id, output: ToolResult)
      requires At(n, w) && w.phase == ClosePhase(inv)
      modifies this, tools
      ensures At(n, w.(phase := RunPhase)) && now == old(now) && sys.stores.hist == old(sys.stores.hist)
      ensures tools.invocations == if cfg.audited then
          L.CompleteInvocation(old(tools.invocations), inv, output.result, output.status, output.latencyMS,
            output.error).0
          else old(tools.invocations)
    {
      if cfg.audited {
        var _ := tools.CompleteInvocation(inv, output.result, output.status, output.latencyMS, output.error);
      }
      Step(n, w, CloseRow(output.result, output.status, output.latencyMS, output.error));
    }

    // interruptForApproval on a fresh call: a pending approval, and an interrupt that carries it.
    method InterruptForApproval(n: nat, ghost w: Worker, conv: Id, workspaceId: Id, raised: seq<Raised>, tool: string,
                                args: string, callId: Id)
      returns (more: seq<Raised>)
      requires At(n, w) && w.phase.RunPhase? && w.conv == conv && w.raised == raised && (conv, tool) in cfg.sensitive
      modifies this, approvals
      ensures At(n, w.(raised := more)) && now == old(now)
      ensures Keeps(old(approvals.State())) && approvals.checkpoints == old(approvals.checkpoints)
      ensures sys.stores.hist.commits == old(sys.stores.hist.commits)
        && sys.stores.hist.entries == old(sys.stores.hist.entries)
      ensures RaisesOne(raised, more) && var info := more[|raised|].info;
        && info == Info(info.approvalId, conv, tool, args, callId) && info.approvalId !in old(approvals.approvals)
        && approvals.approvals
          == old(approvals.approvals)[info.approvalId := A.NewApproval(workspaceId, conv, tool, args, now)]
    {
      var approvalId := FreshId(approvals.approvals.Keys);
      var interruptId := FreshId(DataOf(raised).Keys);
      approvals.CreatePending(approvalId, workspaceId, conv, tool, args, now);
      more := raised + [Raised(interruptId, Info(approvalId, conv, tool, args, callId))];
      Step(n, w, CallTool(tool, args, callId, workspaceId, approvalId, interruptId));
    }

    // The approvals there were are as they were.
    ghost predicate Keeps(before: A.Store<Payload>)
      reads approvals
    {
      forall id :: id in before.approvals ==>
        id in approvals.approvals && approvals.approvals[id] == before.approvals[id]
    }

    // A tool call of the model: governed, interrupted, or made again from the checkpoint being resumed.
    method CallToolOnce(n: nat, ghost w: Worker, conv: Id, workspaceId: Id, approvalId: Option<Id>, checkpoint: Payload,
                        raised: seq<Raised>, step: ModelStep)
      returns (more: seq<Raised>)
      requires At(n, w) && w.phase.RunPhase? && w.conv == conv && w.raised == raised && w.checkpoint == checkpoint
      requires if approvalId.Some? then w.kind == ResumeProtocol.Resume(approvalId.value) else w.kind.Chat?
      requires approvalId.Some? ==> approvalId.value in approvals.approvals
      modifies this, approvals, tools
      ensures At(n, w.(raised := more)) && now == old(now) && Keeps(old(approvals.State()))
      ensures sys.stores.hist.commits == old(sys.stores.hist.commits)
        && approvals.checkpoints == old(approvals.checkpoints)
      ensures Stepped(cfg, Setting(conv, workspaceId, approvalId, checkpoint, w.exec, now), step, old(sys.stores),
                      sys.stores, raised, more)
    {
      more := raised;
      match step
      case Fresh(tool, args, callId, output) =>
        if (conv, tool) in cfg.sensitive {
          more := InterruptForApproval(n, w, conv, workspaceId, raised, tool, args, callId);
        } else {
          Step(n, w, CallTool(tool, args, callId, workspaceId, NO_ID, 0));
          var call := Call(tool, args, callId, None);
          ExecuteGovernedTool(n, w.(phase := LedgerPhase(call)), conv, call, output);
        }
      case Again(stored, output) =>
        if approvalId.Some? && stored in checkpoint.data {
          more := CallAgain(n, w, conv, approvalId.value, checkpoint, raised, stored, output);
        }
    }

    // interruptForApproval on a call made again: only the one this resume targets goes on.
    method CallAgain(n: nat, ghost w: Worker, conv: Id, approvalId: Id, checkpoint: Payload, raised: seq<Raised>,
        stored: nat, output: ToolResult)
      returns (more: seq<Raised>)
      requires At(n, w) && w.phase.RunPhase? && w.conv == conv && w.raised == raised && w.checkpoint == checkpoint
      requires w.kind == ResumeProtocol.Resume(approvalId) && stored in checkpoint.data
      modifies this, tools
      ensures At(n, w.(raised := more)) && now == old(now)
      ensures sys.stores.hist.commits == old(sys.stores.hist.commits)
      ensures if stored == checkpoint.interruptId
              then more == raised && Governed(cfg, old(sys.stores), sys.stores, conv,
                                              CallOf(checkpoint.data[stored], approvalId), w.exec, output)
              else RaisesOne(raised, more) && more[|raised|].info == checkpoint.data[stored]
                   && sys.stores == old(sys.stores)
    {
      var info := checkpoint.data[stored];
      if stored == checkpoint.interruptId {
        Step(n, w, RerunTool(stored, 0));
        var call := CallOf(info, approvalId);
        ExecuteGovernedTool(n, w.(phase := LedgerPhase(call)), conv, call, output);
        more := raised;
      } else {
        var interruptId := FreshId(DataOf(raised).Keys);
        Step(n, w, RerunTool(stored, interruptId));
        more := raised + [Raised(interruptId, info)];
      }
    }

    // The next call of the script.
    method CallNext(n: nat, ghost w: Worker, ghost run: Setting, ghost before: View, conv: Id, workspaceId: Id,
        approvalId: Option<Id>, checkpoint: Payload, raised: seq<Raised>, script: seq<ModelStep>, i: nat)
      returns (more: seq<Raised>)
      requires At(n, w) && w.phase.RunPhase? && w.conv == conv && w.raised == raised && w.checkpoint == checkpoint
      requires if approvalId.Some? then w.kind == ResumeProtocol.Resume(approvalId.value) else w.kind.Chat?
      requires approvalId.Some? ==> approvalId.value in approvals.approvals
      requires i < |script| && run == Setting(conv, workspaceId, approvalId, checkpoint, w.exec, now)
      requires Effect(before, ViewOf(approvalId, sys.stores), raised) in RunsFirst(cfg, run, script, i)
      modifies this, approvals, tools
      ensures At(n, w.(raised := more)) && now == old(now) && Keeps(old(approvals.State()))
      ensures sys.stores.hist.commits == old(sys.stores.hist.commits)
        && approvals.checkpoints == old(approvals.checkpoints)
      ensures Effect(before, ViewOf(approvalId, sys.stores), more) in RunsFirst(cfg, run, script, i + 1)
    {
      ghost var s := sys.stores;
      more := CallToolOnce(n, w, conv, workspaceId, approvalId, checkpoint, raised, script[i]);
      RunNext(cfg, run, script, i, before, s, sys.stores, raised, more);
    }

    // The framework's run, as the model drives it.
    method RunModel(n: nat, ghost w: Worker, conv: Id, workspaceId: Id, approvalId: Option<Id>, checkpoint: Payload,
        script: seq<ModelStep>)
      returns (raised: seq<Raised>)
      requires At(n, w) && w.phase.RunPhase? && w.conv == conv && w.raised == [] && w.checkpoint == checkpoint
      requires if approvalId.Some? then w.kind == ResumeProtocol.Resume(approvalId.value) else w.kind.Chat?
      requires approvalId.Some? ==> approvalId.value in approvals.approvals
      modifies this, approvals, tools
      ensures At(n, w.(raised := raised)) && now == old(now) && Keeps(old(approvals.State()))
      ensures sys.stores.hist.commits == old(sys.stores.hist.commits)
        && approvals.checkpoints == old(approvals.checkpoints)
      ensures
        var run := Setting(conv, workspaceId, approvalId, checkpoint, w.exec, now);
        EffectOf(run, old(sys.stores), sys.stores, raised) in Runs(cfg, run, script)
    {
      raised := [];
      ghost var before := ViewOf(approvalId, sys.stores);
      ghost var run := Setting(conv, workspaceId, approvalId, checkpoint, w.exec, now);
      RunStarts(cfg, run, script, before);
      for i := 0 to |script|
        invariant At(n, w.(raised := raised)) && now == old(now) && Keeps(old(approvals.State()))
        invariant sys.stores.hist.commits == old(sys.stores.hist.commits)
        invariant approvals.checkpoints == old(approvals.checkpoints)
        invariant Effect(before, ViewOf(approvalId, sys.stores), raised) in RunsFirst(cfg, run, script, i)
      {
        raised := CallNext(n, w.(raised := raised), run, before, conv, workspaceId, approvalId, checkpoint, raised,
          script, i);
      }
    }

    method PersistOne(n: nat, ghost w: Worker, conv: Id, raised: seq<Raised>, i: nat) returns (ok: bool)
      requires i < |raised| && At(n, w) && w.phase == PersistPhase(raised[i..]) && w.conv == conv && w.raised == raised
      modifies this, approvals
      ensures At(n, if ok then w.(phase := PersistPhase(raised[i + 1..])) else Return(w, RetErr)) && now == old(now)
      ensures approvals.approvals == old(approvals.approvals) && sys.stores.hist == old(sys.stores.hist)
      ensures ok <==> !Unsavable(old(approvals.checkpoints), conv, raised[i])
      ensures approvals.checkpoints == if !ok then old(approvals.checkpoints) else
          old(approvals.checkpoints)[raised[i].info.approvalId := A.Checkpoint(conv,
            Payload(raised[i].interruptId, DataOf(raised)))]
    {
      assert raised[i..][1..] == raised[i + 1..] && raised[i..][0] == raised[i];
      var payload := Payload(raised[i].interruptId, DataOf(raised));
      var r := approvals.SaveCheckpoint(raised[i].info.approvalId, conv, payload);
      Step(n, w, Proceed);
      ok := r.Ok?;
    }

    // persistApprovalInterrupts: one checkpoint for each interrupt, all with the same framework data.
    method PersistApprovalInterrupts(n: nat, ghost w: Worker, conv: Id, raised: seq<Raised>) returns (ok: bool)
      requires At(n, w) && w.phase == PersistPhase(raised) && w.conv == conv && w.raised == raised
      modifies this, approvals
      ensures At(n, if ok then w.(phase := PersistPhase([])) else Return(w, RetErr)) && now == old(now)
      ensures approvals.approvals == old(approvals.approvals) && sys.stores.hist == old(sys.stores.hist)
      ensures KeptCheckpoints(old(approvals.checkpoints), approvals.checkpoints)
      ensures ok <==> CanSave(old(approvals.checkpoints), conv, raised)
      ensures ok ==> SavedFirst(old(approvals.checkpoints), approvals.checkpoints, conv, raised, |raised|)
    {
      ghost var before := approvals.checkpoints;
      for i := 0 to |raised|
        invariant At(n, w.(phase := PersistPhase(raised[i..]))) && now == old(now)
        invariant approvals.approvals == old(approvals.approvals) && sys.stores.hist == old(sys.stores.hist)
        invariant Persisting(before, approvals.checkpoints, conv, raised, i)
      {
        ghost var earlier := approvals.checkpoints;
        var saved := PersistOne(n, w.(phase := PersistPhase(raised[i..])), conv, raised, i);
        if !saved {
          RefusedNext(before, earlier, conv, raised, i);
          return false;
        }
        SavedNext(before, earlier, approvals.checkpoints, conv, raised, i);
      }
      assert raised[|raised|..] == [];
      return true;
    }

    // commitConversationTurn, and the return that follows it.
    method CommitTurn(n: nat, ghost w: Worker, conv: Id, token: T.TurnToken, batch: seq<T.Message>, next: T.ConvStatus)
      returns (ret: Ret, ghost w': Worker)
      requires At(n, w) && w.phase == CommitPhase(batch, next) && w.conv == conv && w.turn == token && next != T.Running
      modifies this, turns
      ensures At(n, w') && Returned(w', w, ret) && w'.releaseStatus == w.releaseStatus && now == old(now)
      ensures TurnEnded(old(turns.State()), turns.State(), conv, token, ret)
      ensures if ret == RetErr then sys.stores.hist.commits == old(sys.stores.hist.commits)
              else CommitsOnce(old(sys.stores.hist.commits), sys.stores.hist.commits, w)
      ensures ret == if !T.Holds(old(turns.State()), conv, token) then RetErr
                     else if next == T.AwaitingApproval then RetAwait else RetNil
      ensures Logs(old(turns.State()), turns.State(), conv, if ret == RetErr then [] else batch)
      ensures SameCalls(old(sys.stores), sys.stores)
    {
      var ok := turns.CommitConversationTurn(conv, token, AllPresent(batch), next);
      Step(n, w, Proceed);
      if !ok {
        return RetErr, Return(w, RetErr);
      }
      ghost var c := Committed(conv, token, if w.kind.Resume? then Some(w.exec) else None, batch, next);
      assert sys.stores.hist.commits == old(sys.stores.hist.commits) + [c];
      ret := if next == T.AwaitingApproval then RetAwait else RetNil;
      w' := Return(w, ret).(finalized := true);
    }

    // The end of a run: an interrupt, a failure, or an answer, which must not be blank.  `said` is the message
    // the turn began with, if any, and `idle` the status a failed run is released to.
    method FinishRun(n: nat, ghost w: Worker, conv: Id, token: T.TurnToken, said: seq<T.Message>, raised: seq<Raised>,
        ending: Ending, idle: T.ConvStatus)
      returns (ret: Ret, release: T.ConvStatus, ghost w': Worker)
      requires At(n, w) && w.phase.RunPhase? && w.conv == conv && w.turn == token && w.raised == raised
          && w.releaseStatus == idle
      requires said == if w.kind.Chat? then [T.Message(T.User, w.kind.user)] else []
      modifies this, approvals, turns
      ensures At(n, w') && Returned(w', w, ret) && w'.releaseStatus == release
      ensures release == w.releaseStatus || release == T.AwaitingApproval
      ensures T.Holds(old(turns.State()), conv, token) && ret == RetErr ==> release == w.releaseStatus
      ensures now == old(now) && approvals.approvals == old(approvals.approvals)
      ensures TurnEnded(old(turns.State()), turns.State(), conv, token, ret)
      ensures if ret == RetErr then sys.stores.hist.commits == old(sys.stores.hist.commits)
              else CommitsOnce(old(sys.stores.hist.commits), sys.stores.hist.commits, w)
      ensures ret == if T.Holds(old(turns.State()), conv, token)
                     then Verdict(ending, raised, CanSave(old(approvals.checkpoints), conv, raised)) else RetErr
      ensures ret == RetAwait ==> SavedFirst(old(approvals.checkpoints), approvals.checkpoints, conv, raised, |raised|)
      ensures SameCalls(old(sys.stores), sys.stores)
      ensures Logs(old(turns.State()), turns.State(), conv, Logged(ret, said, ending))
    {
      if ending.Failed? {
        Step(n, w, GoWrong);
        return RetErr, idle, Return(w, RetErr);
      }
      release := idle;
      if ending.Stopped? && raised != [] {
        ret, release, w' := FinishInterrupted(n, w, conv, token, said, raised, idle);
      } else {
        ret, w' := FinishAnswered(n, w, conv, token, said, if ending.Said? then ending.answer else "");
        assert Text.TrimSpace("") == "";
      }
    }

    method FinishAnswered(n: nat, ghost w: Worker, conv: Id, token: T.TurnToken, said: seq<T.Message>, answer: string)
      returns (ret: Ret, ghost w': Worker)
      requires At(n, w) && w.phase.RunPhase? && w.conv == conv && w.turn == token
      requires said == if w.kind.Chat? then [T.Message(T.User, w.kind.user)] else []
      modifies this, turns
      ensures At(n, w') && Returned(w', w, ret) && w'.releaseStatus == w.releaseStatus && now == old(now)
      ensures TurnEnded(old(turns.State()), turns.State(), conv, token, ret)
      ensures if ret == RetErr then sys.stores.hist.commits == old(sys.stores.hist.commits)
              else CommitsOnce(old(sys.stores.hist.commits), sys.stores.hist.commits, w)
      ensures ret == if T.Holds(old(turns.State()), conv, token) && Text.TrimSpace(answer) != "" then RetNil else RetErr
      ensures SameCalls(old(sys.stores), sys.stores)
      ensures Logs(old(turns.State()), turns.State(), conv, if ret == RetErr then []
        else said + [T.Message(T.Assistant, answer)])
    {
      Step(n, w, EndAnswer(answer));
      if Text.TrimSpace(answer) == "" {
        return RetErr, Return(w, RetErr);
      }
      var batch := said + [T.Message(T.Assistant, answer)];
      assert batch == if w.kind.Chat? then [T.Message(T.User, w.kind.user), T.Message(T.Assistant, answer)]
          else [T.Message(T.Assistant, answer)];
      ret, w' := CommitTurn(n, w.(phase := CommitPhase(batch, T.Active)), conv, token, batch, T.Active);
    }

    // Every interrupt's checkpoint is saved before the turn is committed.
    method SaveInterrupts(n: nat, ghost w: Worker, conv: Id, said: seq<T.Message>, raised: seq<Raised>)
        returns (ok: bool, ghost k: Worker)
      requires At(n, w) && w.phase.RunPhase? && w.conv == conv && w.raised == raised != []
      requires said == if w.kind.Chat? then [T.Message(T.User, w.kind.user)] else []
      modifies this, approvals
      ensures At(n, k) && now == old(now)
      ensures k == if ok then w.(phase := CommitPhase(said, T.AwaitingApproval), releaseStatus := T.AwaitingApproval)
        else Return(w, RetErr)
      ensures approvals.approvals == old(approvals.approvals) && sys.stores.hist == old(sys.stores.hist)
      ensures ok <==> CanSave(old(approvals.checkpoints), conv, raised)
      ensures ok ==> SavedFirst(old(approvals.checkpoints), approvals.checkpoints, conv, raised, |raised|)
    {
      Step(n, w, EndInterrupted);
      ok := PersistApprovalInterrupts(n, w.(phase := PersistPhase(raised)), conv, raised);
      if !ok {
        return false, Return(w, RetErr);
      }
      Step(n, w.(phase := PersistPhase([])), Proceed);
      k := w.(phase := CommitPhase(said, T.AwaitingApproval), releaseStatus := T.AwaitingApproval);
    }

    method FinishInterrupted(n: nat, ghost w: Worker, conv: Id, token: T.TurnToken, said: seq<T.Message>,
        raised: seq<Raised>, idle: T.ConvStatus)
      returns (ret: Ret, release: T.ConvStatus, ghost w': Worker)
      requires At(n, w) && w.phase.RunPhase? && w.conv == conv && w.turn == token && w.raised == raised != []
          && w.releaseStatus == idle
      requires said == if w.kind.Chat? then [T.Message(T.User, w.kind.user)] else []
      modifies this, approvals, turns
      ensures At(n, w') && Returned(w', w, ret) && w'.releaseStatus == release
      ensures release == w.releaseStatus || release == T.AwaitingApproval
      ensures T.Holds(old(turns.State()), conv, token) && ret == RetErr ==> release == w.releaseStatus
      ensures now == old(now) && approvals.approvals == old(approvals.approvals)
      ensures TurnEnded(old(turns.State()), turns.State(), conv, token, ret)
      ensures if ret == RetErr then sys.stores.hist.commits == old(sys.stores.hist.commits)
              else CommitsOnce(old(sys.stores.hist.commits), sys.stores.hist.commits, w)
      ensures ret == if T.Holds(old(turns.State()), conv, token) && CanSave(old(approvals.checkpoints), conv, raised)
                     then RetAwait else RetErr
      ensures ret != RetErr ==> SavedFirst(old(approvals.checkpoints), approvals.checkpoints, conv, raised, |raised|)
      ensures SameCalls(old(sys.stores), sys.stores)
      ensures Logs(old(turns.State()), turns.State(), conv, if ret == RetErr then [] else said)
    {
      var ok;
      ghost var k;
      ok, k := SaveInterrupts(n, w, conv, said, raised);
      if !ok {
        return RetErr, idle, k;
      }
      release := T.AwaitingApproval;
      ret, w' := CommitTurn(n, k, conv, token, said, T.AwaitingApproval);
    }

    // Resume between its claim of the turn and its deferred steps.
    method ResumeBody(n: nat, ghost w: Worker, conv: Id, workspaceId: Id, approvalId: Id, token: T.TurnToken,
                      script: seq<ModelStep>, ending: Ending)
      returns (ret: Ret, ghost raised: seq<Raised>, ghost w': Worker)
      requires At(n, w) && w.phase.LoadPhase? && w.kind == ResumeProtocol.Resume(approvalId) && w.conv == conv
          && w.turn == token
      requires w.raised == [] && w.releaseStatus == T.AwaitingApproval
      requires T.Holds(turns.State(), conv, token) && approvalId in approvals.approvals
      modifies this, approvals, turns, tools
      ensures At(n, w') && Returned(w', w, ret) && w'.releaseStatus == T.AwaitingApproval
      ensures now == old(now) && Keeps(old(approvals.State()))
      ensures TurnEnded(old(turns.State()), turns.State(), conv, token, ret)
      ensures if ret == RetErr then sys.stores.hist.commits == old(sys.stores.hist.commits)
              else CommitsOnce(old(sys.stores.hist.commits), sys.stores.hist.commits, w)
      ensures Logs(old(turns.State()), turns.State(), conv, Logged(ret, [], ending))
      ensures Resumed(cfg, Setting(conv, workspaceId, Some(approvalId), NO_PAYLOAD, w.exec, now), approvalId, script,
                      ending, old(sys.stores), sys.stores, raised, ret)
    {
      var loaded := approvals.CheckpointForApproval(approvalId, conv);
      Step(n, w, Proceed);
      if loaded.Err? {
        return RetErr, [], Return(w, RetErr);
      }
      ghost var k := w.(phase := RunPhase, checkpoint := loaded.value);
      var interrupts := RunModel(n, k, conv, workspaceId, Some(approvalId), loaded.value, script);
      raised := interrupts;
      var release;
      ret, release, w' := FinishRun(n, k.(raised := raised), conv, token, [], interrupts, ending, T.AwaitingApproval);
    }

    // The deferred release: a turn the body did not commit is given back.
    method LeaveTurn(n: nat, ghost w: Worker, conv: Id, token: T.TurnToken, finalized: bool, release: T.ConvStatus)
      requires At(n, w) && w.phase.TurnExit? && w.conv == conv && w.turn == token && w.finalized == finalized
      requires w.releaseStatus == release && w.turnBeat == Beating
      modifies this, turns
      ensures At(n, w.(phase := if w.kind.Resume? then ApprovalExit else Gone, turnBeat := Off)) && now == old(now)
      ensures turns.State() == if finalized then old(turns.State())
        else T.Release(old(turns.State()), conv, token, release).0
      ensures sys.stores.hist.commits == old(sys.stores.hist.commits) && SameCalls(old(sys.stores), sys.stores)
    {
      if !finalized {
        var _ := turns.ReleaseConversationTurn(conv, token, release);
      }
      Step(n, w, Proceed);
    }

    // Resume between its claim of the execution and the deferred steps before: the turn is claimed, and
    // released unless the body committed it.
    method ResumeTurn(n: nat, ghost w: Worker, conv: Id, workspaceId: Id, approvalId: Id, script: seq<ModelStep>,
        ending: Ending)
      returns (ret: Ret, claimed: bool, ghost raised: seq<Raised>, ghost w': Worker)
      requires At(n, w) && w.phase.ClaimPhase? && w.kind == ResumeProtocol.Resume(approvalId) && w.conv == conv
      requires w.raised == [] && w.releaseStatus == T.AwaitingApproval && !w.finalized
      requires approvalId in approvals.approvals
      modifies this, approvals, turns, tools
      ensures At(n, w') && w'.phase.ApprovalExit? && w'.ret == ret && SameExecution(w', w)
      ensures now == old(now) && Keeps(old(approvals.State()))
      ensures claimed <==> T.Claim(old(turns.State()), conv, true, now).1.Some?
      ensures !claimed ==> ret == RetErr && turns.State() == old(turns.State())
      ensures !claimed ==> raised == [] && SameCalls(old(sys.stores), sys.stores)
      ensures claimed ==>
        Resumed(cfg, Setting(conv, workspaceId, Some(approvalId), NO_PAYLOAD, w.exec, now), approvalId, script, ending,
                old(sys.stores), sys.stores, raised, ret)
      ensures claimed ==>
          conv in turns.conversations
            && turns.conversations[conv] == (if ret == RetNil then T.Active else T.AwaitingApproval)
      ensures ret != RetErr ==> CommitsFor(old(sys.stores.hist.commits), sys.stores.hist.commits, conv, w.exec)
      ensures Logs(old(turns.State()), turns.State(), conv, Logged(ret, [], ending))
    {
      var turn := turns.ClaimConversationTurn(conv, true, now);
      Step(n, w, Proceed);
      if turn.None? {
        return RetErr, false, [], w.(phase := ApprovalExit, ret := RetErr);
      }
      var token := turn.value;
      ghost var k := w.(phase := LoadPhase, turn := token, turnBeat := Beating);
      ret, raised, w' := ResumeBody(n, k, conv, workspaceId, approvalId, token, script, ending);
      LeaveTurn(n, w', conv, token, ret != RetErr, T.AwaitingApproval);
      claimed, w' := true, w'.(phase := ApprovalExit, turnBeat := Off);
    }

    // A new resume, up to its claim of the execution; then time passes again.
    method BeginResume(n: nat, conv: Id, approvalId: Id, wait: nat, next: nat)
      returns (token: A.Result<A.Token>, ghost k: Worker)
      requires Valid() && n !in sys.workers
      modifies this, approvals
      ensures Valid() && n in sys.workers && sys.stores.hist.commits == old(sys.stores.hist.commits)
      ensures sys.stores.hist.entries == old(sys.stores.hist.entries)
      ensures token.Ok? ==> now == old(now) + wait + next
      ensures (approvals.State(), token) == A.BeginExecution(old(approvals.State()), approvalId, conv, old(now) + wait)
      ensures token.Ok? ==> OnlyOwn(old(sys.stores), sys.stores, approvalId)
      ensures token.Ok? ==>
        A.CheckpointForApproval(approvals.State(), approvalId, conv)
        == A.CheckpointForApproval(old(approvals.State()), approvalId, conv)
      ensures token.Ok? ==> approvalId in approvals.approvals && A.Holds(approvals.approvals[approvalId], token.value)
      ensures token.Ok? ==> At(n, k) && k.phase.ClaimPhase? && IsAttempt(k, approvalId, conv, token.value)
                            && k.raised == [] && k.releaseStatus == T.AwaitingApproval && !k.finalized
                                && k.approvalBeat == Beating
    {
      Elapse(wait);
      sys := Next(cfg, sys, StartResume(n, conv, approvalId));
      ghost var w := NewWorker(ResumeProtocol.Resume(approvalId), conv, BeginPhase);
      token := approvals.BeginExecution(approvalId, conv, now);
      Step(n, w, Proceed);
      k := w;
      if token.Ok? {
        k := w.(phase := ClaimPhase, exec := token.value, approvalBeat := Beating);
        Elapse(next);
      }
    }

    // Resume between its claim of the execution and its end.
    method ResumeBegun(n: nat, ghost k: Worker, conv: Id, workspaceId: Id, approvalId: Id, token: A.Token,
        script: seq<ModelStep>, ending: Ending, wait: nat)
      returns (ret: Ret, claimed: bool, ghost raised: seq<Raised>)
      requires At(n, k) && k.phase.ClaimPhase? && IsAttempt(k, approvalId, conv, token)
      requires k.raised == [] && k.releaseStatus == T.AwaitingApproval && !k.finalized && k.approvalBeat == Beating
      requires approvalId in approvals.approvals && A.Holds(approvals.approvals[approvalId], token)
      modifies this, approvals, turns, tools
      ensures Valid() && (claimed <==> T.Claim(old(turns.State()), conv, true, old(now)).1.Some?)
      ensures
        var run := Setting(conv, workspaceId, Some(approvalId), NO_PAYLOAD, token, old(now));
        if claimed then
          Resumed(cfg, run, approvalId, script, ending, old(sys.stores), sys.stores, raised, ret)
        else ret == RetErr && raised == [] && Idle(run, old(sys.stores), sys.stores)
      ensures approvalId in approvals.approvals
          && approvals.approvals[approvalId].exec == (if ret == RetErr then A.Failed else A.Completed)
      ensures claimed ==>
          conv in turns.conversations
            && turns.conversations[conv] == (if ret == RetNil then T.Active else T.AwaitingApproval)
      ensures ret != RetErr ==> CommitsFor(old(sys.stores.hist.commits), sys.stores.hist.commits, conv, token)
      ensures Logs(old(turns.State()), turns.State(), conv, Logged(ret, [], ending))
    {
      ghost var exiting;
      ret, claimed, raised, exiting := ResumeTurn(n, k, conv, workspaceId, approvalId, script, ending);
      EndResume(n, exiting, approvalId, token, ret, wait);
    }

    /**
     Resume, with nobody else about: time passes before its claims and before it settles.  An approval whose
     execution it claims ends up completed or failed, never executing: completed exactly when the resume ended
     well, and then this very attempt has committed its conversation's turn.  A turn it claims is given back, and
     the calls made and the approvals asked for are those of the model's run from the checkpoint; without the turn
     there are none.
     */
    method Resume(n: nat, conv: Id, workspaceId: Id, approvalId: Id, script: seq<ModelStep>, ending: Ending,
        waits: (nat, nat, nat))
      returns (ret: Ret, begun: bool, claimed: bool, ghost exec: A.Token, ghost raised: seq<Raised>)
      requires Valid() && n !in sys.workers
      modifies this, approvals, turns, tools
      ensures Valid()
      ensures begun <==> A.BeginExecution(old(approvals.State()), approvalId, conv, old(now) + waits.0).1.Ok?
      ensures !begun ==>
        ret == RetErr && approvals.State() == old(approvals.State()) && turns.State() == old(turns.State())
      ensures !begun ==> raised == [] && SameCalls(old(sys.stores), sys.stores)
      ensures claimed <==> begun && T.Claim(old(turns.State()), conv, true, old(now) + waits.0 + waits.1).1.Some?
      ensures begun ==> A.BeginExecution(old(approvals.State()), approvalId, conv, old(now) + waits.0).1 == A.Ok(exec)
      ensures begun ==>
        var run := Setting(conv, workspaceId, Some(approvalId), NO_PAYLOAD, exec, old(now) + waits.0 + waits.1);
        if claimed then
          Resumed(cfg, run, approvalId, script, ending, old(sys.stores), sys.stores, raised, ret)
        else ret == RetErr && raised == [] && Idle(run, old(sys.stores), sys.stores)
      ensures begun ==>
          approvalId in approvals.approvals
            && approvals.approvals[approvalId].exec == (if ret == RetErr then A.Failed else A.Completed)
      ensures claimed ==>
          conv in turns.conversations
            && turns.conversations[conv] == (if ret == RetNil then T.Active else T.AwaitingApproval)
      ensures begun && ret != RetErr ==>
        CommitsFor(old(sys.stores.hist.commits), sys.stores.hist.commits, conv, exec)
      ensures Logs(old(turns.State()), turns.State(), conv, Logged(ret, [], ending))
    {
      var token;
      ghost var k;
      token, k := BeginResume(n, conv, approvalId, waits.0, waits.1);
      if token.Err? {
        return RetErr, false, false, A.NO_TOKEN, [];
      }
      begun, exec := true, token.value;
      ret, claimed, raised := ResumeBegun(n, k, conv, workspaceId, approvalId, token.value, script, ending, waits.2);
    }

    // The deferred steps after the turn.
    method EndResume(n: nat, ghost w: Worker, approvalId: Id, token: A.Token, ret: Ret, wait: nat)
      requires At(n, w) && w.phase.ApprovalExit? && w.kind == ResumeProtocol.Resume(approvalId) && w.exec == token
          && w.ret == ret && w.approvalBeat == Beating
      requires approvalId in approvals.approvals && A.Holds(approvals.approvals[approvalId], token)
      modifies this, approvals
      ensures Valid() && sys.stores.hist.commits == old(sys.stores.hist.commits)
      ensures OnlyOwn(old(sys.stores), sys.stores, approvalId)
      ensures approvalId in approvals.approvals
        && approvals.approvals[approvalId].exec == (if ret == RetErr then A.Failed else A.Completed)
    {
      Step(n, w, Proceed);
      Elapse(wait);
      Settle(n, w.(phase := SettlePhase, approvalBeat := Off), approvalId, token, ret);
    }

    // The last deferred step: complete or fail the execution.
    method Settle(n: nat, ghost w: Worker, approvalId: Id, token: A.Token, ret: Ret)
      requires At(n, w) && w.phase.SettlePhase? && w.kind == ResumeProtocol.Resume(approvalId) && w.exec == token
          && w.ret == ret
      requires approvalId in approvals.approvals && A.Holds(approvals.approvals[approvalId], token)
      modifies this, approvals
      ensures Valid() && sys.stores.hist.commits == old(sys.stores.hist.commits)
      ensures sys.stores.hist.entries == old(sys.stores.hist.entries)
      ensures approvals.checkpoints == old(approvals.checkpoints)
      ensures approvals.approvals - {approvalId} == old(approvals.approvals) - {approvalId}
      ensures approvalId in approvals.approvals
        && approvals.approvals[approvalId].exec == (if ret == RetErr then A.Failed else A.Completed)
    {
      if ret == RetErr {
        var _ := approvals.FailExecution(approvalId, token, "", now);
      } else {
        var _ := approvals.CompleteExecution(approvalId, token, now);
      }
      Step(n, w, Proceed);
    }

    // ChatStream after its claim, deferred release included.
    method ChatTurn(n: nat, ghost w: Worker, conv: Id, workspaceId: Id, token: T.TurnToken, user: string,
                    script: seq<ModelStep>, ending: Ending)
      returns (ret: Ret, ghost raised: seq<Raised>)
      requires At(n, w) && w.phase.LoadPhase? && w.kind == ResumeProtocol.Chat(user) && w.conv == conv
        && w.turn == token
      requires w.raised == [] && w.releaseStatus == T.Active && !w.finalized && w.checkpoint == NO_PAYLOAD
      requires T.Holds(turns.State(), conv, token)
      modifies this, approvals, turns, tools
      ensures Valid()
      ensures conv in turns.conversations
        && turns.conversations[conv] == (if ret == RetAwait then T.AwaitingApproval else T.Active)
      ensures |sys.stores.hist.commits| == |old(sys.stores.hist.commits)| + (if ret == RetErr then 0 else 1)
      ensures Logs(old(turns.State()), turns.State(), conv, Logged(ret, [T.Message(T.User, user)], ending))
      ensures TookTurn(cfg, Setting(conv, workspaceId, None, NO_PAYLOAD, w.exec, old(now)), script, ending,
                       old(sys.stores), sys.stores, raised, ret)
    {
      Step(n, w, Proceed);
      ghost var k := w.(phase := RunPhase, turnBeat := Beating);
      var interrupts := RunModel(n, k, conv, workspaceId, None, NO_PAYLOAD, script);
      raised := interrupts;
      var release;
      ghost var exiting;
      ret, release, exiting := FinishRun(n, k.(raised := raised), conv, token, [T.Message(T.User, user)], interrupts,
        ending, T.Active);
      LeaveTurn(n, exiting, conv, token, ret != RetErr, release);
    }

    // A new chat, up to its claim of the turn.
    method BeginChat(n: nat, conv: Id, user: string, wait: nat) returns (turn: Option<T.TurnToken>, ghost w: Worker)
      requires Valid() && n !in sys.workers
      modifies this, turns
      ensures Valid() && now == old(now) + wait && SameCalls(old(sys.stores), sys.stores)
      ensures (turns.State(), turn) == T.Claim(old(turns.State()), conv, false, now)
      ensures turn.Some? ==> T.Holds(turns.State(), conv, turn.value)
      ensures T.MessagesOf(turns.State(), conv) == T.MessagesOf(old(turns.State()), conv)
      ensures sys.stores.hist.commits == old(sys.stores.hist.commits)
      ensures turn.Some? ==> At(n, w) && w.phase.LoadPhase? && w.kind == ResumeProtocol.Chat(user) && w.conv == conv
      ensures turn.Some? ==> w.turn == turn.value && w.exec == A.NO_TOKEN && !w.finalized
      ensures turn.Some? ==> w.raised == [] && w.releaseStatus == T.Active && w.checkpoint == NO_PAYLOAD
    {
      Elapse(wait);
      sys := Next(cfg, sys, StartChat(n, conv, user));
      w := NewWorker(ResumeProtocol.Chat(user), conv, ClaimPhase);
      turn := turns.ClaimConversationTurn(conv, false, now);
      Step(n, w, Proceed);
      w := w.(phase := LoadPhase, turn := if turn.Some? then turn.value else T.NoTurn);
    }

    /**
     A chat turn, with nobody else about: an idle conversation is claimed, the turn ends in one commit for the
     status its result says or in none, and either way the conversation is given back.
     */
    method Chat(n: nat, conv: Id, workspaceId: Id, user: string, script: seq<ModelStep>, ending: Ending, wait: nat)
      returns (ret: Ret, claimed: bool, ghost raised: seq<Raised>)
      requires Valid() && n !in sys.workers
      modifies this, approvals, turns, tools
      ensures Valid()
      ensures claimed <==> T.Claim(old(turns.State()), conv, false, old(now) + wait).1.Some?
      ensures !claimed ==>
        ret == RetErr && turns.State() == old(turns.State()) && approvals.State() == old(approvals.State())
      ensures !claimed ==> raised == [] && SameCalls(old(sys.stores), sys.stores)
      ensures claimed ==>
        TookTurn(cfg, Setting(conv, workspaceId, None, NO_PAYLOAD, A.NO_TOKEN, old(now) + wait), script, ending,
                 old(sys.stores), sys.stores, raised, ret)
      ensures claimed ==>
          conv in turns.conversations
            && turns.conversations[conv] == (if ret == RetAwait then T.AwaitingApproval else T.Active)
      ensures |sys.stores.hist.commits| == |old(sys.stores.hist.commits)| + (if ret == RetErr then 0 else 1)
      ensures Logs(old(turns.State()), turns.State(), conv, Logged(ret, [T.Message(T.User, user)], ending))
    {
      var turn;
      ghost var w;
      turn, w := BeginChat(n, conv, user, wait);
      if turn.None? {
        return RetErr, false, [];
      }
      claimed := true;
      ret, raised := ChatTurn(n, w, conv, workspaceId, turn.value, user, script, ending);
    }

    // ---- what others do to the stores ----

    method OpenConversation() returns (conv: Id)
      requires Valid()
      modifies this, turns
      ensures Valid() && conv != NO_ID && conv !in old(turns.conversations)
      ensures turns.State() == T.CreateConversation(old(turns.State()), conv)
    {
      conv := FreshId(turns.conversations.Keys);
      turns.CreateConversation(conv);
      sys := Next(cfg, sys, NewConversation(conv));
    }

    // A human decision, through the handler: an approval of another workspace is not found.  A rejection frees
    // no conversation here.
    method DecideApproval(id: Id, workspaceId: Id, verdict: A.Status, approver: Id) returns (r: A.Result<A.Approval>)
      requires Valid() && verdict != A.Pending
      modifies this, approvals
      ensures Valid() && approvals.checkpoints == old(approvals.checkpoints)
      ensures r == if id !in old(approvals.approvals) || old(approvals.approvals)[id].workspaceId != workspaceId
                   then A.Err(A.NotFound)
                   else A.ResolvePending(old(approvals.State()), id, workspaceId, verdict, approver, now).1
      ensures approvals.approvals == if r.Ok? then old(approvals.approvals)[id := r.value] else old(approvals.approvals)
      ensures r.Ok? ==> r.value.status == verdict && r.value.approverId == approver && r.value.resolvedAt == Some(now)
    {
      if id !in approvals.approvals || approvals.approvals[id].workspaceId != workspaceId {
        return A.Err(A.NotFound);
      }
      r := approvals.ResolvePending(id, workspaceId, verdict, approver, now);
      sys := Next(cfg, sys, Decide(id, workspaceId, verdict, approver, false));
    }

    // ---- the heartbeats ----

    // The approval heartbeat: renew every 30 seconds until told to stop, or refused once.
    method RenewApprovalLease(n: nat, ghost w: Worker, approvalId: Id, token: A.Token, ticks: nat) returns (lost: bool)
      requires At(n, w) && w.kind == ResumeProtocol.Resume(approvalId) && w.exec == token && w.approvalBeat == Beating
      modifies this, approvals
      ensures At(n, if lost then w.(approvalBeat := Lost) else w)
      ensures lost <==>
          ticks > 0 && !(approvalId in old(approvals.approvals) && A.Holds(old(approvals.approvals)[approvalId], token))
      ensures !lost && ticks > 0 ==>
        approvalId in approvals.approvals && A.Holds(approvals.approvals[approvalId], token)
        && forall t: int :: t <= now + 120_000_000_000 ==> !A.Ready(approvals.approvals[approvalId], t)
      ensures !lost ==> now == old(now) + ticks * 30_000_000_000
    {
      lost := false;
      for i := 0 to ticks
        invariant At(n, w) && now == old(now) + i * BEAT
        invariant i == 0 ==> approvals.approvals == old(approvals.approvals)
        invariant i > 0 ==>
          approvalId in old(approvals.approvals) && A.Holds(old(approvals.approvals)[approvalId], token)
        invariant i > 0 ==> approvalId in approvals.approvals && A.Holds(approvals.approvals[approvalId], token)
                            && approvals.approvals[approvalId].leaseUntil == Some(now + LEASE)
      {
        Elapse(BEAT);
        var r := approvals.RenewExecution(approvalId, token, now);
        sys := Next(cfg, sys, BeatApproval(n));
        if r.Err? {
          return true;
        }
      }
    }

    // The turn heartbeat.
    method RenewTurnLease(n: nat, ghost w: Worker, conv: Id, token: T.TurnToken, ticks: nat) returns (lost: bool)
      requires At(n, w) && w.conv == conv && w.turn == token && w.turnBeat == Beating
      modifies this, turns
      ensures At(n, if lost then w.(turnBeat := Lost) else w)
      ensures lost <==> ticks > 0 && !T.Holds(old(turns.State()), conv, token)
      ensures !lost && ticks > 0 && token != T.NoTurn ==>
        T.Holds(turns.State(), conv, token)
        && forall t: int, resume :: t <= now + 120_000_000_000 ==>
          !T.Claimable(T.Running, turns.conversationTurns[conv], resume, t)
      ensures !lost ==> now == old(now) + ticks * 30_000_000_000
    {
      lost := false;
      for i := 0 to ticks
        invariant At(n, w) && now == old(now) + i * BEAT
        invariant i == 0 ==> turns.State() == old(turns.State())
        invariant i > 0 ==> T.Holds(old(turns.State()), conv, token) && T.Holds(turns.State(), conv, token)
                            && turns.conversationTurns[conv].leaseUntil == Some(now + LEASE)
      {
        Elapse(BEAT);
        var ok := turns.RenewConversationTurn(conv, token, now);
        sys := Next(cfg, sys, BeatTurn(n));
        if !ok {
          return true;
        }
      }
    }
  }

  // Beginning or ending an execution changes the one approval only.
  predicate OnlyOwn(before: Stores, after: Stores, approvalId: Id) {
    ViewOf(Some(approvalId), after) == ViewOf(Some(approvalId), before)
    && after.approvals.checkpoints == before.approvals.checkpoints
  }

  // The same attempt at the same approval.
  predicate SameExecution(w': Worker, w: Worker) {
    w'.kind == w.kind && w'.conv == w.conv && w'.exec == w.exec && w'.approvalBeat == w.approvalBeat
  }

  predicate IsAttempt(k: Worker, approvalId: Id, conv: Id, token: A.Token) {
    k.kind == ResumeProtocol.Resume(approvalId) && k.conv == conv && k.exec == token
  }

  // The worker has returned from its body with this result, before its deferred steps.
  predicate Returned(w': Worker, w: Worker, ret: Ret) {
    && w'.phase.TurnExit? && w'.ret == ret && w'.finalized == (w.finalized || ret != RetErr)
    && w'.kind == w.kind && w'.conv == w.conv && w'.exec == w.exec && w'.turn == w.turn
    && w'.approvalBeat == w.approvalBeat && w'.turnBeat == w.turnBeat
  }

  // A body that succeeds has ended its turn, for the status its result says; one that fails has not.
  predicate TurnEnded(before: T.Store, after: T.Store, conv: Id, token: T.TurnToken, ret: Ret) {
    if ret == RetErr then after == before
    else
      && T.Holds(before, conv, token)
      && after.status == before.status[conv := if ret == RetAwait then T.AwaitingApproval else T.Active]
      && after.turns == before.turns[conv := before.turns[conv].(token := T.NoTurn, leaseUntil := None)]
  }

  // One more commit, made by this worker's attempt.
  predicate CommitsOnce(before: seq<Committed>, after: seq<Committed>, w: Worker) {
    && |after| == |before| + 1 && before <= after
    && var c := after[|before|];
       c.conv == w.conv && c.turn == w.turn && c.attempt == if w.kind.Resume? then Some(w.exec) else None
  }

  // One more commit, made by the attempt that has this execution token.
  predicate CommitsFor(before: seq<Committed>, after: seq<Committed>, conv: Id, token: A.Token) {
    && |after| == |before| + 1 && before <= after
    && after[|before|].conv == conv && after[|before|].attempt == Some(token)
  }
}
