/**
 What a turn does: the calls of its run, the checkpoints it saves for those that are interrupted, and its result.
 */
module TurnEffects {
  import opened Prelude
  import A = Approvals
  import Text
  import opened ModelRuns
  import opened ResumeProtocol

  type Checkpoints = map<Id, A.Checkpoint<Payload>>

  // How a run ends.
  datatype Ending = Stopped | Failed | Said(answer: string)

  function EffectOf(run: Setting, s: Stores, s': Stores, raised: seq<Raised>): Effect {
    Effect(ViewOf(run.approvalId, s), ViewOf(run.approvalId, s'), raised)
  }

  // No call was made, and no approval changed but the one that is resumed.
  predicate Idle(run: Setting, s: Stores, s': Stores) {
    ViewOf(run.approvalId, s') == ViewOf(run.approvalId, s)
  }

  // The checkpoint of an interrupt holds all the interrupts of its run, and names this one.
  predicate Saved(checkpoints: Checkpoints, conv: Id, raised: seq<Raised>, i: nat)
    requires i < |raised|
  {
    && raised[i].info.approvalId in checkpoints
    && checkpoints[raised[i].info.approvalId] == A.Checkpoint(conv, Payload(raised[i].interruptId, DataOf(raised)))
  }

  predicate Unsavable(checkpoints: Checkpoints, conv: Id, r: Raised) {
    conv == NO_ID || r.info.approvalId == NO_ID || r.info.approvalId in checkpoints
  }

  // The store takes every checkpoint: there is a conversation, and each approval is named once and has none yet.
  predicate CanSave(checkpoints: Checkpoints, conv: Id, raised: seq<Raised>) {
    CanSaveFirst(checkpoints, conv, raised, |raised|)
  }

  predicate CanSaveFirst(checkpoints: Checkpoints, conv: Id, raised: seq<Raised>, n: nat)
    requires n <= |raised|
  {
    && (forall i :: 0 <= i < n ==> !Unsavable(checkpoints, conv, raised[i]))
    && forall i, j :: 0 <= i < j < n ==> raised[i].info.approvalId != raised[j].info.approvalId
  }

  // The first i checkpoints are saved, and no other.
  predicate SavedFirst(before: Checkpoints, after: Checkpoints, conv: Id, raised: seq<Raised>, i: nat)
    requires i <= |raised|
  {
    && (forall j :: 0 <= j < i ==> raised[j].info.approvalId !in before && Saved(after, conv, raised, j))
    && forall id :: id in after && id !in before ==> exists j :: 0 <= j < i && raised[j].info.approvalId == id
  }

  // The result of a run that holds its turn.
  function Verdict(ending: Ending, raised: seq<Raised>, saves: bool): Ret {
    match ending
    case Failed => RetErr
    case Said(answer) => if Text.TrimSpace(answer) == "" then RetErr else RetNil
    case Stopped => if raised != [] && saves then RetAwait else RetErr
  }

  // No tool was called and no approval asked for.
  predicate SameCalls(s: Stores, s': Stores) {
    s'.ledger == s.ledger && s'.hist.entries == s.hist.entries && s'.approvals.approvals == s.approvals.approvals
  }

  // What a turn may do: its run, its result, and the checkpoints it saves before it waits for approval.
  datatype TurnEffect = TurnEffect(effect: Effect, before: Checkpoints, after: Checkpoints, ret: Ret)

  ghost function TurnEffects(cfg: Config, run: Setting, script: seq<ModelStep>, ending: Ending): iset<TurnEffect> {
    iset t: TurnEffect |
      && t.effect in Runs(cfg, run, script)
      && t.ret == Verdict(ending, t.effect.raised, CanSave(t.before, run.conv, t.effect.raised))
      && (t.ret == RetAwait ==> SavedFirst(t.before, t.after, run.conv, t.effect.raised, |t.effect.raised|))
  }

  ghost predicate TookTurn(cfg: Config, run: Setting, script: seq<ModelStep>, ending: Ending, s: Stores, s': Stores,
      raised: seq<Raised>, ret: Ret)
  {
    TurnEffect(EffectOf(run, s, s', raised), s.approvals.checkpoints, s'.approvals.checkpoints, ret)
      in TurnEffects(cfg, run, script, ending)
  }

  // What a resume that has claimed its turn did: it ran from the checkpoint of its approval, if there is one for
  // this conversation.
  ghost predicate Resumed(cfg: Config, run: Setting, approvalId: Id, script: seq<ModelStep>, ending: Ending, s: Stores,
      s': Stores, raised: seq<Raised>, ret: Ret)
  {
    var loaded := A.CheckpointForApproval(s.approvals, approvalId, run.conv);
    if loaded.Err? then ret == RetErr && raised == [] && Idle(run, s, s')
    else TookTurn(cfg, run.(checkpoint := loaded.value), script, ending, s, s', raised, ret)
  }

  ghost predicate KeptCheckpoints(before: Checkpoints, after: Checkpoints) {
    forall id :: id in before ==> id in after && after[id] == before[id]
  }

  // The state of the loop of PersistApprovalInterrupts.
  ghost predicate Persisting(before: Checkpoints, after: Checkpoints, conv: Id, raised: seq<Raised>, i: nat)
    requires i <= |raised|
  {
    KeptCheckpoints(before, after) && SavedFirst(before, after, conv, raised, i)
    && CanSaveFirst(before, conv, raised, i)
  }

  // The checkpoint of an interrupt is refused only if they cannot all be saved.
  lemma {:induction false} RefusedNext(before: Checkpoints, after: Checkpoints, conv: Id, raised: seq<Raised>, i: nat)
    requires i < |raised| && Persisting(before, after, conv, raised, i) && Unsavable(after, conv, raised[i])
    ensures !CanSave(before, conv, raised)
  {
    if !Unsavable(before, conv, raised[i]) {
      var j :| 0 <= j < i && raised[j].info.approvalId == raised[i].info.approvalId;
    }
  }

  lemma {:induction false} SavableNext(before: Checkpoints, after: Checkpoints, conv: Id, raised: seq<Raised>, i: nat)
    requires i < |raised| && Persisting(before, after, conv, raised, i) && !Unsavable(after, conv, raised[i])
    ensures CanSaveFirst(before, conv, raised, i + 1)
    ensures forall j :: 0 <= j < i ==> raised[j].info.approvalId != raised[i].info.approvalId
  {
    forall j | 0 <= j < i
      ensures raised[j].info.approvalId != raised[i].info.approvalId
    {
      assert Saved(after, conv, raised, j);
    }
  }

  lemma {:induction false} SavedNext(before: Checkpoints, after: Checkpoints, after': Checkpoints, conv: Id,
      raised: seq<Raised>, i: nat)
    requires i < |raised| && Persisting(before, after, conv, raised, i) && !Unsavable(after, conv, raised[i])
    requires after' == after[raised[i].info.approvalId :=
               A.Checkpoint(conv, Payload(raised[i].interruptId, DataOf(raised)))]
    ensures Persisting(before, after', conv, raised, i + 1)
  {
    SavableNext(before, after, conv, raised, i);
    forall j | 0 <= j < i
      ensures Saved(after', conv, raised, j)
    {
      assert Saved(after, conv, raised, j);
    }
  }

  // ---- what follows for a resume ----

  // The model makes a stored call again, one that its resume does not target.
  predicate Reraises(step: ModelStep, checkpoint: Payload) {
    step.Again? && step.stored in checkpoint.data && step.stored != checkpoint.interruptId
  }

  // Among the calls the model makes again under this approval's checkpoint, one that it does not target has an
  // approval with a checkpoint of its own.
  predicate ReraisesSaved(checkpoints: Checkpoints, approvalId: Id, script: seq<ModelStep>) {
    approvalId in checkpoints &&
      var checkpoint := checkpoints[approvalId].state;
      exists i :: 0 <= i < |script| && Reraises(script[i], checkpoint)
        && checkpoint.data[script[i].stored].approvalId in checkpoints
  }

  /** A resume that is interrupted, and interrupts again a call whose approval has a checkpoint, fails. */
  lemma {:induction false} ReraisedSavedFails(cfg: Config, run: Setting, approvalId: Id, script: seq<ModelStep>,
      ending: Ending, s: Stores, s': Stores, raised: seq<Raised>, ret: Ret)
    requires Resumed(cfg, run, approvalId, script, ending, s, s', raised, ret) && run.approvalId == Some(approvalId)
    requires ending.Stopped? && ReraisesSaved(s.approvals.checkpoints, approvalId, script)
    ensures ret == RetErr
  {
    var checkpoint := s.approvals.checkpoints[approvalId].state;
    if A.CheckpointForApproval(s.approvals, approvalId, run.conv).Ok? {
      var i :| 0 <= i < |script| && Reraises(script[i], checkpoint)
        && checkpoint.data[script[i].stored].approvalId in s.approvals.checkpoints;
      OtherIsRaisedAgain(cfg, run.(checkpoint := checkpoint), script, ViewOf(run.approvalId, s),
        ViewOf(run.approvalId, s'), raised, i);
    }
  }

  // An interrupt is that of a step.
  lemma {:induction false} RaisedByStep(cfg: Config, run: Setting, script: seq<ModelStep>, e: Effect)
    requires e in Runs(cfg, run, script) && e.raised != []
    ensures exists i :: 0 <= i < |script| && Interrupts(cfg, run, script[i])
  {
    var asks :| AsksFirst(cfg, run, script, |script|, e.before.approvals, e.after.approvals, e.raised, asks);
    assert asks[0] in asks;
    assert asks[0] in Interrupting(cfg, run, script);
  }

  /**
   A resume whose model makes the approved call and then answers makes that call exactly once, with the tool, the
   input and the call id it was interrupted with, and ends well.
   */
  lemma {:induction false} ApprovedCallIsMade(cfg: Config, run: Setting, approvalId: Id, output: ToolResult,
      answer: string, s: Stores, s': Stores, raised: seq<Raised>, ret: Ret)
    returns (inv: Id)
    requires A.CheckpointForApproval(s.approvals, approvalId, run.conv).Ok? && run.approvalId == Some(approvalId)
    requires
      var checkpoint := A.CheckpointForApproval(s.approvals, approvalId, run.conv).value;
      && checkpoint.interruptId in checkpoint.data
      && !InLedger(s.ledger, run.conv, checkpoint.data[checkpoint.interruptId].callId)
      && Resumed(cfg, run, approvalId, [Again(checkpoint.interruptId, output)], Said(answer), s, s', raised, ret)
    requires Text.TrimSpace(answer) != ""
    ensures ret == RetNil && raised == []
    ensures
      var checkpoint := A.CheckpointForApproval(s.approvals, approvalId, run.conv).value;
      var info := checkpoint.data[checkpoint.interruptId];
      s'.hist.entries
      == s.hist.entries + [Entry(run.conv, info.tool, info.args, info.callId, Some(approvalId), inv, run.exec)]
  {
    var checkpoint := A.CheckpointForApproval(s.approvals, approvalId, run.conv).value;
    var at := run.(checkpoint := checkpoint);
    var script := [Again(checkpoint.interruptId, output)];
    var e := EffectOf(at, s, s', raised);
    if raised != [] {
      RaisedByStep(cfg, at, script, e);
    }
    TargetIsEntered(cfg, at, script, e.before, e.after, raised, 0);
    var steps := NothingElseIsEntered(cfg, at, script, e.before, e.after, raised);
    inv := s'.hist.entries[|s.hist.entries|].inv;
  }
}
