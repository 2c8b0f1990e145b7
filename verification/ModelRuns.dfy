/**
 What a run of the model does: the tool calls of its script, in order.  A call goes to its executor, or is
 interrupted for approval; a call made again from a checkpoint goes on only if the resume targets it.
 */
module ModelRuns {
  import opened Prelude
  import A = Approvals
  import L = ToolLedger
  import opened ResumeProtocol

  // A tool's executor gives a result.
  datatype ToolResult = ToolResult(result: string, status: L.RunStatus, latencyMS: int, error: string)
  datatype ModelStep =
    | Fresh(tool: string, args: string, callId: Id, output: ToolResult)
    | Again(stored: nat, output: ToolResult)

  // The conversation and workspace of a run, the approval it resumes with its checkpoint, if any, the execution
  // token it has, and when it asks for approvals.
  datatype Setting = Setting(conv: Id, workspaceId: Id, approvalId: Option<Id>, checkpoint: Payload, exec: A.Token,
                             at: int)

  // The ledger row of a call, before its executor is entered.
  function OpenRow(conv: Id, call: Call): L.Invocation {
    L.Invocation(conv, call.callId, NO_ID, call.args, "", L.InvocationRunning, 0, "")
  }

  // The row when it is closed.
  function ClosedRow(conv: Id, call: Call, output: ToolResult): L.Invocation {
    OpenRow(conv, call).(result := output.result, status := output.status, latencyMS := output.latencyMS,
                         error := output.error)
  }

  // An interrupted call, made again under the approval it was given.
  function CallOf(info: Info, approvalId: Id): Call {
    Call(info.tool, info.args, info.callId, Some(approvalId))
  }

  function EntryOf(conv: Id, call: Call, inv: Id, exec: A.Token): Entry {
    Entry(conv, call.tool, call.args, call.callId, call.approval, inv, exec)
  }

  // ---- one step ----

  // A call the ledger has seen before entered nothing.  Any other entered its executor once, and with a ledger a
  // new row stands beside it, closed with its result.
  ghost predicate Governed(cfg: Config, s: Stores, s': Stores, conv: Id, call: Call, exec: A.Token, output: ToolResult)
  {
    if cfg.audited && L.Duplicate(s.ledger, OpenRow(conv, call)) then s' == s
    else exists inv :: s'.hist.entries == s.hist.entries + [EntryOf(conv, call, inv, exec)]
           && s'.ledger == LedgerWith(cfg, s.ledger, inv, conv, call, output)
           && if cfg.audited then inv !in s.ledger else inv == NO_ID
  }

  function LedgerWith(cfg: Config, ledger: L.Store, inv: Id, conv: Id, call: Call, output: ToolResult): L.Store {
    if !cfg.audited then ledger else ledger[inv := ClosedRow(conv, call, output)]
  }

  predicate RaisesOne(raised: seq<Raised>, more: seq<Raised>) {
    && |more| == |raised| + 1 && raised <= more
    && more[|raised|].interruptId !in DataOf(raised)
  }

  // The step makes a call: a fresh one of a tool that is not sensitive, or the one the resume targets.
  predicate Makes(cfg: Config, run: Setting, step: ModelStep) {
    match step
    case Fresh(tool, _, _, _) => (run.conv, tool) !in cfg.sensitive
    case Again(stored, _) =>
      run.approvalId.Some? && stored in run.checkpoint.data && stored == run.checkpoint.interruptId
  }

  function CallMade(cfg: Config, run: Setting, step: ModelStep): Call
    requires Makes(cfg, run, step)
  {
    match step
    case Fresh(tool, args, callId, _) => Call(tool, args, callId, None)
    case Again(stored, _) => CallOf(run.checkpoint.data[stored], run.approvalId.value)
  }

  // The step is interrupted: a fresh call of a sensitive tool, or one made again that the resume does not target.
  predicate Interrupts(cfg: Config, run: Setting, step: ModelStep) {
    match step
    case Fresh(tool, _, _, _) => (run.conv, tool) in cfg.sensitive
    case Again(stored, _) =>
      run.approvalId.Some? && stored in run.checkpoint.data && stored != run.checkpoint.interruptId
  }

  // ---- the calls that are made ----

  // An earlier step of the run made the call.
  predicate MadeBefore(cfg: Config, run: Setting, script: seq<ModelStep>, i: nat, callId: Id)
    requires i <= |script|
  {
    callId != NO_ID
    && exists j ::
         0 <= j < i && Makes(cfg, run, script[j]) && CallMade(cfg, run, script[j]).callId == callId
  }

  // Step i enters its executor: it makes a call whose id neither the ledger nor an earlier step has seen.
  ghost predicate Enters(cfg: Config, run: Setting, ledger: L.Store, script: seq<ModelStep>, i: nat)
    requires i < |script|
  {
    Makes(cfg, run, script[i]) && (cfg.audited ==>
      var call := CallMade(cfg, run, script[i]);
      !L.Duplicate(ledger, OpenRow(run.conv, call)) && !MadeBefore(cfg, run, script, i, call.callId))
  }

  // The entry of a call, and the row beside it.
  predicate EntryAt(cfg: Config, run: Setting, step: ModelStep, ledger: L.Store, ledger': L.Store, entry: Entry) {
    && Makes(cfg, run, step) && entry == EntryOf(run.conv, CallMade(cfg, run, step), entry.inv, run.exec)
    && if cfg.audited then
         entry.inv !in ledger && entry.inv in ledger'
         && ledger'[entry.inv] == ClosedRow(run.conv, CallMade(cfg, run, step), step.output)
       else entry.inv == NO_ID
  }

  // The new rows are those of the new entries, all different.
  ghost predicate RowsAre(ledger: L.Store, ledger': L.Store, news: seq<Entry>, audited: bool) {
    && (forall id :: id in ledger ==> id in ledger' && ledger'[id] == ledger[id])
    && (forall id :: id in ledger' && id !in ledger ==> exists k :: 0 <= k < |news| && news[k].inv == id)
    && (audited ==> forall k, l :: 0 <= k < l < |news| ==> news[k].inv != news[l].inv)
  }

  // The numbers of some of the first n steps, in order: of those for which p holds.
  ghost predicate Picks(picks: seq<nat>, n: nat, p: iset<nat>) {
    && (forall k, l :: 0 <= k < l < |picks| ==> picks[k] < picks[l])
    && forall i: nat :: i in picks <==> i < n && i in p
  }

  ghost function Entering(cfg: Config, run: Setting, ledger: L.Store, script: seq<ModelStep>): iset<nat> {
    iset i: nat | i < |script| && Enters(cfg, run, ledger, script, i)
  }

  // The first n steps entered exactly these calls, in order, each with a row of its own if there is a ledger.
  ghost predicate EntersFirst(cfg: Config, run: Setting, script: seq<ModelStep>, n: nat, ledger: L.Store,
      ledger': L.Store, news: seq<Entry>, picks: seq<nat>)
    requires n <= |script|
  {
    && Picks(picks, n, Entering(cfg, run, ledger, script))
    && EntriesAre(cfg, run, script, n, ledger, ledger', news, picks)
    && RowsAre(ledger, ledger', news, cfg.audited)
  }

  ghost predicate EntriesAre(cfg: Config, run: Setting, script: seq<ModelStep>, n: nat, ledger: L.Store,
      ledger': L.Store, news: seq<Entry>, picks: seq<nat>)
    requires n <= |script|
  {
    |news| == |picks| && forall k :: 0 <= k < |picks| ==>
      picks[k] < n && EntryAt(cfg, run, script[picks[k]], ledger, ledger', news[k])
  }

  lemma {:induction false} PicksNext(picks: seq<nat>, n: nat, p: iset<nat>)
    requires Picks(picks, n, p)
    ensures Picks(if n in p then picks + [n] else picks, n + 1, p)
  {
    var more := if n in p then picks + [n] else picks;
    forall k, l | 0 <= k < l < |more|
      ensures more[k] < more[l]
    {
      assert k < |picks| && picks[k] in picks;
    }
    forall i: nat
      ensures i in more <==> i < n + 1 && i in p
    {
      assert i in picks <==> i < n && i in p;
    }
  }

  // Who made a call before entered it, unless the ledger had it already.
  lemma {:induction false} MadeIsEntered(cfg: Config, run: Setting, script: seq<ModelStep>, n: nat, ledger: L.Store,
      picks: seq<nat>, j: nat)
    requires cfg.audited && j < n <= |script| && Picks(picks, n, Entering(cfg, run, ledger, script))
    requires Makes(cfg, run, script[j]) && CallMade(cfg, run, script[j]).callId != NO_ID
    requires !L.Duplicate(ledger, OpenRow(run.conv, CallMade(cfg, run, script[j])))
    ensures exists k ::
        0 <= k < |picks| && picks[k] < n && Makes(cfg, run, script[picks[k]])
        && CallMade(cfg, run, script[picks[k]]).callId == CallMade(cfg, run, script[j]).callId
    decreases j
  {
    var call := CallMade(cfg, run, script[j]);
    if MadeBefore(cfg, run, script, j, call.callId) {
      var i :| 0 <= i < j && Makes(cfg, run, script[i]) && CallMade(cfg, run, script[i]).callId == call.callId;
      assert L.Duplicate(ledger, OpenRow(run.conv, CallMade(cfg, run, script[i]))) ==>
          L.Duplicate(ledger, OpenRow(run.conv, call)) by {
        SameId(ledger, run.conv, CallMade(cfg, run, script[i]), call);
      }
      MadeIsEntered(cfg, run, script, n, ledger, picks, i);
    } else {
      assert j in Entering(cfg, run, ledger, script);
      assert j in picks;
    }
  }

  lemma {:induction false} SameId(ledger: L.Store, conv: Id, call: Call, call': Call)
    requires call.callId == call'.callId
    ensures L.Duplicate(ledger, OpenRow(conv, call)) <==> L.Duplicate(ledger, OpenRow(conv, call'))
  {
    forall id | id in ledger
      ensures L.SameCall(OpenRow(conv, call), ledger[id]) <==> L.SameCall(OpenRow(conv, call'), ledger[id])
    {
    }
  }

  /** A call is a duplicate when it is made exactly if the ledger had it before the run, or the run made it before. */
  lemma {:induction false} DuplicateIff(cfg: Config, run: Setting, script: seq<ModelStep>, n: nat, ledger: L.Store,
      ledger': L.Store, news: seq<Entry>, picks: seq<nat>)
    requires n < |script| && cfg.audited && EntersFirst(cfg, run, script, n, ledger, ledger', news, picks)
    requires Makes(cfg, run, script[n])
    ensures L.Duplicate(ledger', OpenRow(run.conv, CallMade(cfg, run, script[n])))
        <==> !Enters(cfg, run, ledger, script, n)
  {
    var call := CallMade(cfg, run, script[n]);
    var row := OpenRow(run.conv, call);
    if L.Duplicate(ledger, row) {
      var id :| id in ledger && L.SameCall(row, ledger[id]);
      assert L.SameCall(row, ledger'[id]);
    } else if MadeBefore(cfg, run, script, n, call.callId) {
      var j :| 0 <= j < n && Makes(cfg, run, script[j]) && CallMade(cfg, run, script[j]).callId == call.callId;
      SameId(ledger, run.conv, CallMade(cfg, run, script[j]), call);
      MadeIsEntered(cfg, run, script, n, ledger, picks, j);
      var k :| 0 <= k < |picks| && picks[k] < n && Makes(cfg, run, script[picks[k]])
        && CallMade(cfg, run, script[picks[k]]).callId == call.callId;
      assert EntryAt(cfg, run, script[picks[k]], ledger, ledger', news[k]);
      assert L.SameCall(row, ledger'[news[k].inv]);
    } else if L.Duplicate(ledger', row) {
      var id :| id in ledger' && L.SameCall(row, ledger'[id]);
      NewRowIsMade(cfg, run, script, n, ledger, ledger', news, picks, id);
    }
  }

  lemma {:induction false} NewRowIsMade(cfg: Config, run: Setting, script: seq<ModelStep>, n: nat, ledger: L.Store,
      ledger': L.Store, news: seq<Entry>, picks: seq<nat>, id: Id)
    requires n <= |script| && cfg.audited && EntersFirst(cfg, run, script, n, ledger, ledger', news, picks)
    requires id in ledger' && id !in ledger && ledger'[id].toolCallId != NO_ID
    ensures MadeBefore(cfg, run, script, n, ledger'[id].toolCallId)
  {
    var k :| 0 <= k < |news| && news[k].inv == id;
    assert EntryAt(cfg, run, script[picks[k]], ledger, ledger', news[k]);
  }

  // A step that enters nothing.
  lemma {:induction false} NoEntryNext(cfg: Config, run: Setting, script: seq<ModelStep>, n: nat, ledger: L.Store,
      ledger': L.Store, news: seq<Entry>, picks: seq<nat>)
    requires n < |script| && EntersFirst(cfg, run, script, n, ledger, ledger', news, picks)
    requires !Enters(cfg, run, ledger, script, n)
    ensures EntersFirst(cfg, run, script, n + 1, ledger, ledger', news, picks)
  {
    PicksNext(picks, n, Entering(cfg, run, ledger, script));
  }

  // A step that enters its executor.
  lemma {:induction false} EntryNext(cfg: Config, run: Setting, script: seq<ModelStep>, n: nat, ledger: L.Store,
      ledger': L.Store, news: seq<Entry>, picks: seq<nat>, inv: Id)
    requires n < |script| && EntersFirst(cfg, run, script, n, ledger, ledger', news, picks)
    requires Enters(cfg, run, ledger, script, n) && if cfg.audited then inv !in ledger' else inv == NO_ID
    ensures
      var call := CallMade(cfg, run, script[n]);
      EntersFirst(cfg, run, script, n + 1, ledger, LedgerWith(cfg, ledger', inv, run.conv, call, script[n].output),
        news + [EntryOf(run.conv, call, inv, run.exec)], picks + [n])
  {
    PicksNext(picks, n, Entering(cfg, run, ledger, script));
    var call := CallMade(cfg, run, script[n]);
    var entry := EntryOf(run.conv, call, inv, run.exec);
    var after := LedgerWith(cfg, ledger', inv, run.conv, call, script[n].output);
    assert n in Entering(cfg, run, ledger, script);
    EntriesNext(cfg, run, script, n, ledger, ledger', after, news, picks, entry);
    NewsAreRows(cfg, run, script, n, ledger, ledger', news, picks);
    RowsNext(ledger, ledger', after, news, entry, cfg.audited);
  }

  lemma {:induction false} NewsAreRows(cfg: Config, run: Setting, script: seq<ModelStep>, n: nat, ledger: L.Store,
      ledger': L.Store, news: seq<Entry>, picks: seq<nat>)
    requires n <= |script| && EntriesAre(cfg, run, script, n, ledger, ledger', news, picks)
    ensures cfg.audited ==> forall k :: 0 <= k < |news| ==> news[k].inv in ledger'
  {
    forall k | 0 <= k < |news| && cfg.audited
      ensures news[k].inv in ledger'
    {
      assert EntryAt(cfg, run, script[picks[k]], ledger, ledger', news[k]);
    }
  }

  lemma {:induction false} EntriesNext(cfg: Config, run: Setting, script: seq<ModelStep>, n: nat, ledger: L.Store,
      ledger': L.Store, after: L.Store, news: seq<Entry>, picks: seq<nat>, entry: Entry)
    requires n < |script| && EntriesAre(cfg, run, script, n, ledger, ledger', news, picks)
    requires forall id :: id in ledger' && id != entry.inv ==> id in after && after[id] == ledger'[id]
    requires cfg.audited ==> entry.inv !in ledger'
    requires EntryAt(cfg, run, script[n], ledger, after, entry)
    ensures EntriesAre(cfg, run, script, n + 1, ledger, after, news + [entry], picks + [n])
  {
    forall k | 0 <= k < |picks|
      ensures EntryAt(cfg, run, script[picks[k]], ledger, after, news[k])
    {
      assert EntryAt(cfg, run, script[picks[k]], ledger, ledger', news[k]);
    }
  }

  lemma {:induction false} RowsNext(ledger: L.Store, ledger': L.Store, after: L.Store, news: seq<Entry>, entry: Entry,
      audited: bool)
    requires RowsAre(ledger, ledger', news, audited)
    requires if audited then
               entry.inv !in ledger' && entry.inv in after && after == ledger'[entry.inv := after[entry.inv]]
             else after == ledger'
    requires audited ==> forall k :: 0 <= k < |news| ==> news[k].inv in ledger'
    ensures RowsAre(ledger, after, news + [entry], audited)
  {
    var more := news + [entry];
    forall id | id in after && id !in ledger
      ensures exists k :: 0 <= k < |more| && more[k].inv == id
    {
      if audited && id == entry.inv {
        assert more[|news|].inv == id;
      } else {
        var k :| 0 <= k < |news| && news[k].inv == id;
        assert more[k].inv == id;
      }
    }
  }

  /** One governed call more: entered exactly if neither the ledger nor the run had seen it. */
  lemma {:induction false} GovernedNext(cfg: Config, run: Setting, script: seq<ModelStep>, n: nat, ledger: L.Store,
      news: seq<Entry>, picks: seq<nat>, s: Stores, s': Stores)
      returns (more: seq<Entry>, picks': seq<nat>)
    requires n < |script| && EntersFirst(cfg, run, script, n, ledger, s.ledger, news, picks)
    requires Makes(cfg, run, script[n])
    requires Governed(cfg, s, s', run.conv, CallMade(cfg, run, script[n]), run.exec, script[n].output)
    ensures EntersFirst(cfg, run, script, n + 1, ledger, s'.ledger, news + more, picks')
    ensures s'.hist.entries == s.hist.entries + more
  {
    var call := CallMade(cfg, run, script[n]);
    if cfg.audited {
      DuplicateIff(cfg, run, script, n, ledger, s.ledger, news, picks);
    }
    if Enters(cfg, run, ledger, script, n) {
      var inv :| s'.hist.entries == s.hist.entries + [EntryOf(run.conv, call, inv, run.exec)]
        && s'.ledger == LedgerWith(cfg, s.ledger, inv, run.conv, call, script[n].output)
        && if cfg.audited then inv !in s.ledger else inv == NO_ID;
      EntryNext(cfg, run, script, n, ledger, s.ledger, news, picks, inv);
      more, picks' := [EntryOf(run.conv, call, inv, run.exec)], picks + [n];
    } else {
      NoEntryNext(cfg, run, script, n, ledger, s.ledger, news, picks);
      more, picks' := [], picks;
      assert news + more == news;
    }
  }

  // ---- the approvals that are asked for ----

  ghost function Interrupting(cfg: Config, run: Setting, script: seq<ModelStep>): iset<nat> {
    iset i: nat | i < |script| && Interrupts(cfg, run, script[i])
  }

  // A fresh call has a new pending approval and an interrupt that carries it; one made again has the interrupt
  // with what it was first interrupted with.
  predicate RaisedAt(run: Setting, step: ModelStep, before: map<Id, A.Approval>, after: map<Id, A.Approval>, info: Info)
  {
    match step
    case Fresh(tool, args, callId, _) =>
      && info == Info(info.approvalId, run.conv, tool, args, callId)
      && info.approvalId !in before && info.approvalId in after
      && after[info.approvalId] == A.NewApproval(run.workspaceId, run.conv, tool, args, run.at)
    case Again(stored, _) => stored in run.checkpoint.data && info == run.checkpoint.data[stored]
  }

  ghost predicate AsksFirst(cfg: Config, run: Setting, script: seq<ModelStep>, n: nat, before: map<Id, A.Approval>,
      after: map<Id, A.Approval>, raised: seq<Raised>, asks: seq<nat>)
    requires n <= |script|
  {
    && Picks(asks, n, Interrupting(cfg, run, script))
    && RaisedAre(run, script, n, before, after, raised, asks)
    && Different(raised)
    && OneEach(script, before, after, raised, asks)
  }

  ghost predicate RaisedAre(run: Setting, script: seq<ModelStep>, n: nat, before: map<Id, A.Approval>,
      after: map<Id, A.Approval>, raised: seq<Raised>, asks: seq<nat>)
    requires n <= |script|
  {
    |raised| == |asks| && forall k :: 0 <= k < |asks| ==>
      asks[k] < n && RaisedAt(run, script[asks[k]], before, after, raised[k].info)
  }

  ghost predicate Different(raised: seq<Raised>) {
    forall k, l :: 0 <= k < l < |raised| ==> raised[k].interruptId != raised[l].interruptId
  }

  predicate IsNew(script: seq<ModelStep>, asks: seq<nat>, k: nat)
    requires k < |asks|
  {
    asks[k] < |script| && script[asks[k]].Fresh?
  }

  // The approvals there were stay as they were, and each new one is asked for by one fresh call.
  ghost predicate OneEach(script: seq<ModelStep>, before: map<Id, A.Approval>, after: map<Id, A.Approval>,
      raised: seq<Raised>, asks: seq<nat>) {
    && |raised| == |asks|
    && (forall id :: id in before ==> id in after && after[id] == before[id])
    && (forall id :: id in after && id !in before ==>
         exists k :: 0 <= k < |asks| && IsNew(script, asks, k) && raised[k].info.approvalId == id)
    && forall k, l :: 0 <= k < l < |asks| && IsNew(script, asks, k) && IsNew(script, asks, l) ==>
         raised[k].info.approvalId != raised[l].info.approvalId
  }

  lemma {:induction false} NoAskNext(cfg: Config, run: Setting, script: seq<ModelStep>, n: nat,
      before: map<Id, A.Approval>, after: map<Id, A.Approval>, raised: seq<Raised>, asks: seq<nat>)
    requires n < |script| && AsksFirst(cfg, run, script, n, before, after, raised, asks)
    requires !Interrupts(cfg, run, script[n])
    ensures AsksFirst(cfg, run, script, n + 1, before, after, raised, asks)
  {
    PicksNext(asks, n, Interrupting(cfg, run, script));
  }

  lemma {:induction false} InData(raised: seq<Raised>, k: nat)
    requires k < |raised|
    ensures raised[k].interruptId in DataOf(raised)
  {
    if k < |raised| - 1 {
      InData(raised[..|raised| - 1], k);
    }
  }

  lemma {:induction false} DifferentNext(raised: seq<Raised>, r: Raised)
    requires r.interruptId !in DataOf(raised) && Different(raised)
    ensures Different(raised + [r])
  {
    forall k | 0 <= k < |raised|
      ensures raised[k].interruptId != r.interruptId
    {
      InData(raised, k);
    }
  }

  lemma {:induction false} RaisedNext(run: Setting, script: seq<ModelStep>, n: nat, before: map<Id, A.Approval>,
      after: map<Id, A.Approval>, after': map<Id, A.Approval>, raised: seq<Raised>, r: Raised, asks: seq<nat>)
    requires n < |script| && RaisedAre(run, script, n, before, after, raised, asks)
    requires RaisedAt(run, script[n], before, after', r.info)
    requires forall id :: id in after ==> id in after' && after'[id] == after[id]
    ensures RaisedAre(run, script, n + 1, before, after', raised + [r], asks + [n])
  {
    forall k | 0 <= k < |asks|
      ensures RaisedAt(run, script[asks[k]], before, after', raised[k].info)
    {
      assert RaisedAt(run, script[asks[k]], before, after, raised[k].info);
    }
  }

  // A fresh call asks for one approval more; one made again for none.
  predicate OneMore(step: ModelStep, after: map<Id, A.Approval>, after': map<Id, A.Approval>, id: Id) {
    if step.Fresh? then id !in after && id in after' && after' == after[id := after'[id]] else after' == after
  }

  lemma {:induction false} OneEachNext(script: seq<ModelStep>, n: nat, before: map<Id, A.Approval>,
      after: map<Id, A.Approval>, after': map<Id, A.Approval>, raised: seq<Raised>, r: Raised, asks: seq<nat>)
    requires n < |script| && OneEach(script, before, after, raised, asks)
    requires forall k :: 0 <= k < |asks| && IsNew(script, asks, k) ==> raised[k].info.approvalId in after
    requires OneMore(script[n], after, after', r.info.approvalId)
    ensures OneEach(script, before, after', raised + [r], asks + [n])
  {
    var more, asks' := raised + [r], asks + [n];
    assert forall k :: 0 <= k < |asks| ==> IsNew(script, asks', k) == IsNew(script, asks, k);
    forall id | id in after' && id !in before
      ensures exists k :: 0 <= k < |asks'| && IsNew(script, asks', k) && more[k].info.approvalId == id
    {
      NewIsAsked(script, n, before, after, after', raised, r, asks, id);
    }
    forall k, l | 0 <= k < l < |asks'| && IsNew(script, asks', k) && IsNew(script, asks', l)
      ensures more[k].info.approvalId != more[l].info.approvalId
    {
      assert IsNew(script, asks, k) && (l < |asks| ==> IsNew(script, asks, l));
    }
  }

  lemma {:induction false} NewIsAsked(script: seq<ModelStep>, n: nat, before: map<Id, A.Approval>,
      after: map<Id, A.Approval>, after': map<Id, A.Approval>, raised: seq<Raised>, r: Raised, asks: seq<nat>, id: Id)
    requires n < |script| && OneEach(script, before, after, raised, asks)
    requires OneMore(script[n], after, after', r.info.approvalId) && id in after' && id !in before
    ensures exists k ::
        0 <= k < |asks| + 1 && IsNew(script, asks + [n], k) && (raised + [r])[k].info.approvalId == id
  {
    var more, asks' := raised + [r], asks + [n];
    if id in after {
      var k :| 0 <= k < |asks| && IsNew(script, asks, k) && raised[k].info.approvalId == id;
      assert IsNew(script, asks', k) && more[k].info.approvalId == id;
    } else {
      assert IsNew(script, asks', |asks|) && more[|asks|].info.approvalId == id;
    }
  }

  // One more interrupt.
  lemma {:induction false} AskNext(cfg: Config, run: Setting, script: seq<ModelStep>, n: nat,
      before: map<Id, A.Approval>, after: map<Id, A.Approval>, after': map<Id, A.Approval>, raised: seq<Raised>,
      r: Raised, asks: seq<nat>)
    requires n < |script| && AsksFirst(cfg, run, script, n, before, after, raised, asks)
    requires Interrupts(cfg, run, script[n]) && r.interruptId !in DataOf(raised)
    requires RaisedAt(run, script[n], before, after', r.info)
    requires OneMore(script[n], after, after', r.info.approvalId)
    ensures AsksFirst(cfg, run, script, n + 1, before, after', raised + [r], asks + [n])
  {
    assert n in Interrupting(cfg, run, script);
    PicksNext(asks, n, Interrupting(cfg, run, script));
    DifferentNext(raised, r);
    RaisedNext(run, script, n, before, after, after', raised, r, asks);
    NewAreThere(run, script, n, before, after, raised, asks);
    OneEachNext(script, n, before, after, after', raised, r, asks);
  }

  lemma {:induction false} NewAreThere(run: Setting, script: seq<ModelStep>, n: nat, before: map<Id, A.Approval>,
      after: map<Id, A.Approval>, raised: seq<Raised>, asks: seq<nat>)
    requires n <= |script| && RaisedAre(run, script, n, before, after, raised, asks)
    ensures forall k :: 0 <= k < |asks| && IsNew(script, asks, k) ==> raised[k].info.approvalId in after
  {
    forall k | 0 <= k < |asks| && IsNew(script, asks, k)
      ensures raised[k].info.approvalId in after
    {
      assert RaisedAt(run, script[asks[k]], before, after, raised[k].info);
    }
  }

  // ---- a run ----

  // What a run is seen to change: the ledger, the entries, and all approvals but the one the run resumes.
  datatype View = View(ledger: L.Store, entries: seq<Entry>, approvals: map<Id, A.Approval>)

  function Others(approvalId: Option<Id>, approvals: map<Id, A.Approval>): map<Id, A.Approval> {
    if approvalId.Some? then approvals - {approvalId.value} else approvals
  }

  function ViewOf(approvalId: Option<Id>, s: Stores): View {
    View(s.ledger, s.hist.entries, Others(approvalId, s.approvals.approvals))
  }

  // What the first n steps of the script did, and the interrupts they raised.
  ghost predicate RanFirst(cfg: Config, run: Setting, script: seq<ModelStep>, n: nat, v: View, v': View,
      raised: seq<Raised>)
    requires n <= |script|
  {
    exists news, picks, asks ::
      v'.entries == v.entries + news
      && EntersFirst(cfg, run, script, n, v.ledger, v'.ledger, news, picks)
      && AsksFirst(cfg, run, script, n, v.approvals, v'.approvals, raised, asks)
  }

  // What a run may do: what it finds, what it leaves, and the interrupts it raises.
  datatype Effect = Effect(before: View, after: View, raised: seq<Raised>)

  ghost function RunsFirst(cfg: Config, run: Setting, script: seq<ModelStep>, n: nat): iset<Effect>
    requires n <= |script|
  {
    iset e: Effect | RanFirst(cfg, run, script, n, e.before, e.after, e.raised)
  }

  ghost function Runs(cfg: Config, run: Setting, script: seq<ModelStep>): iset<Effect> {
    RunsFirst(cfg, run, script, |script|)
  }

  // One step: a governed call, an interrupt, or nothing.
  ghost predicate Stepped(cfg: Config, run: Setting, step: ModelStep, s: Stores, s': Stores, raised: seq<Raised>,
      more: seq<Raised>)
  {
    if Makes(cfg, run, step) then
      && Governed(cfg, s, s', run.conv, CallMade(cfg, run, step), run.exec, step.output)
      && more == raised && s'.approvals == s.approvals
    else if Interrupts(cfg, run, step) then
      && RaisesOne(raised, more) && s'.ledger == s.ledger && s'.hist.entries == s.hist.entries
      && RaisedAt(run, step, s.approvals.approvals, s'.approvals.approvals, more[|raised|].info)
      && var id := more[|raised|].info.approvalId;
         if step.Fresh? then
           s'.approvals.approvals == s.approvals.approvals[id := s'.approvals.approvals[id]]
           && (run.approvalId.Some? ==> run.approvalId.value in s.approvals.approvals)
         else s'.approvals == s.approvals
    else ViewOf(run.approvalId, s') == ViewOf(run.approvalId, s) && more == raised
  }

  lemma {:induction false} RunStarts(cfg: Config, run: Setting, script: seq<ModelStep>, v: View)
    ensures Effect(v, v, []) in RunsFirst(cfg, run, script, 0)
  {
    var news: seq<Entry>, picks: seq<nat>, asks: seq<nat> := [], [], [];
    assert v.entries == v.entries + news;
    assert EntersFirst(cfg, run, script, 0, v.ledger, v.ledger, news, picks);
    assert AsksFirst(cfg, run, script, 0, v.approvals, v.approvals, [], asks);
  }

  lemma {:induction false} MadeNext(cfg: Config, run: Setting, script: seq<ModelStep>, n: nat, v: View, s: Stores,
      s': Stores, raised: seq<Raised>)
    requires n < |script| && RanFirst(cfg, run, script, n, v, ViewOf(run.approvalId, s), raised)
    requires Makes(cfg, run, script[n]) && Stepped(cfg, run, script[n], s, s', raised, raised)
    ensures RanFirst(cfg, run, script, n + 1, v, ViewOf(run.approvalId, s'), raised)
  {
    var after := Others(run.approvalId, s.approvals.approvals);
    var news, picks, asks :| s.hist.entries == v.entries + news
      && EntersFirst(cfg, run, script, n, v.ledger, s.ledger, news, picks)
      && AsksFirst(cfg, run, script, n, v.approvals, after, raised, asks);
    var more, picks' := GovernedNext(cfg, run, script, n, v.ledger, news, picks, s, s');
    NoAskNext(cfg, run, script, n, v.approvals, after, raised, asks);
    assert s'.hist.entries == v.entries + (news + more);
  }

  lemma {:induction false} NothingNext(cfg: Config, run: Setting, script: seq<ModelStep>, n: nat, v: View, v': View,
      raised: seq<Raised>)
    requires n < |script| && RanFirst(cfg, run, script, n, v, v', raised)
    requires !Makes(cfg, run, script[n]) && !Interrupts(cfg, run, script[n])
    ensures RanFirst(cfg, run, script, n + 1, v, v', raised)
  {
    var news, picks, asks :| v'.entries == v.entries + news
      && EntersFirst(cfg, run, script, n, v.ledger, v'.ledger, news, picks)
      && AsksFirst(cfg, run, script, n, v.approvals, v'.approvals, raised, asks);
    NoEntryNext(cfg, run, script, n, v.ledger, v'.ledger, news, picks);
    NoAskNext(cfg, run, script, n, v.approvals, v'.approvals, raised, asks);
  }

  lemma {:induction false} InterruptNext(cfg: Config, run: Setting, script: seq<ModelStep>, n: nat, v: View, s: Stores,
      s': Stores, raised: seq<Raised>, more: seq<Raised>)
    requires n < |script| && RanFirst(cfg, run, script, n, v, ViewOf(run.approvalId, s), raised)
    requires Interrupts(cfg, run, script[n]) && Stepped(cfg, run, script[n], s, s', raised, more)
    ensures RanFirst(cfg, run, script, n + 1, v, ViewOf(run.approvalId, s'), more)
  {
    var after := Others(run.approvalId, s.approvals.approvals);
    var after' := Others(run.approvalId, s'.approvals.approvals);
    var news, picks, asks :| s.hist.entries == v.entries + news
      && EntersFirst(cfg, run, script, n, v.ledger, s.ledger, news, picks)
      && AsksFirst(cfg, run, script, n, v.approvals, after, raised, asks);
    NoEntryNext(cfg, run, script, n, v.ledger, s.ledger, news, picks);
    var r := more[|raised|];
    OthersNext(run, script[n], s, s', r.info.approvalId);
    assert after.Keys <= s.approvals.approvals.Keys;
    AskNext(cfg, run, script, n, v.approvals, after, after', raised, r, asks);
    assert raised + [r] == more;
  }

  lemma {:induction false} OthersNext(run: Setting, step: ModelStep, s: Stores, s': Stores, id: Id)
    requires if step.Fresh? then
               id !in s.approvals.approvals && id in s'.approvals.approvals
               && s'.approvals.approvals == s.approvals.approvals[id := s'.approvals.approvals[id]]
               && (run.approvalId.Some? ==> run.approvalId.value in s.approvals.approvals)
             else s'.approvals == s.approvals
    ensures
      var after := Others(run.approvalId, s.approvals.approvals);
      var after' := Others(run.approvalId, s'.approvals.approvals);
      if step.Fresh? then id in after' && after' == after[id := s'.approvals.approvals[id]] else after' == after
  {
    var after := Others(run.approvalId, s.approvals.approvals);
    var after' := Others(run.approvalId, s'.approvals.approvals);
    if step.Fresh? && run.approvalId.Some? {
      assert id != run.approvalId.value;
      assert after' == after[id := s'.approvals.approvals[id]];
    }
  }

  lemma {:induction false} RunNext(cfg: Config, run: Setting, script: seq<ModelStep>, n: nat, v: View, s: Stores,
      s': Stores, raised: seq<Raised>, more: seq<Raised>)
    requires n < |script| && Effect(v, ViewOf(run.approvalId, s), raised) in RunsFirst(cfg, run, script, n)
    requires Stepped(cfg, run, script[n], s, s', raised, more)
    ensures Effect(v, ViewOf(run.approvalId, s'), more) in RunsFirst(cfg, run, script, n + 1)
  {
    if Makes(cfg, run, script[n]) {
      MadeNext(cfg, run, script, n, v, s, s', raised);
    } else if Interrupts(cfg, run, script[n]) {
      InterruptNext(cfg, run, script, n, v, s, s', raised, more);
    } else {
      NothingNext(cfg, run, script, n, v, ViewOf(run.approvalId, s), raised);
    }
  }

  // ---- what a run means for each call ----

  // The ledger has a row for this call of the conversation.
  predicate InLedger(ledger: L.Store, conv: Id, callId: Id) {
    exists id :: id in ledger && ledger[id].conversationId == conv && ledger[id].toolCallId == callId
  }

  // The entry's row records its call and the result of its executor.
  predicate HasRow(ledger: L.Store, entry: Entry, output: ToolResult) {
    && entry.inv in ledger && ledger[entry.inv].conversationId == entry.conv
    && ledger[entry.inv].toolCallId == entry.callId && ledger[entry.inv].args == entry.args
    && ledger[entry.inv].result == output.result && ledger[entry.inv].status == output.status
    && ledger[entry.inv].latencyMS == output.latencyMS && ledger[entry.inv].error == output.error
  }

  /** A fresh call of a tool that is not sensitive, with an id not seen before, has its entry. */
  lemma {:induction false} FreshIsEntered(cfg: Config, run: Setting, script: seq<ModelStep>, v: View, v': View,
      raised: seq<Raised>, i: nat)
    requires Effect(v, v', raised) in Runs(cfg, run, script)
    requires i < |script| && script[i].Fresh? && (run.conv, script[i].tool) !in cfg.sensitive
    requires cfg.audited && script[i].callId != NO_ID ==>
      !InLedger(v.ledger, run.conv, script[i].callId)
      && forall j :: 0 <= j < i ==>
           if script[j].Fresh? then script[j].callId != script[i].callId
           else script[j].stored in run.checkpoint.data ==>
             run.checkpoint.data[script[j].stored].callId != script[i].callId
    ensures exists k ::
        |v.entries| <= k < |v'.entries|
        && v'.entries[k] == Entry(run.conv, script[i].tool, script[i].args, script[i].callId, None,
             v'.entries[k].inv, run.exec)
        && (cfg.audited ==> HasRow(v'.ledger, v'.entries[k], script[i].output))
  {
    EnteredAt(cfg, run, script, v, v', raised, i);
  }

  /** The call a resume targets has its entry, under the approval, if the ledger had not seen it. */
  lemma {:induction false} TargetIsEntered(cfg: Config, run: Setting, script: seq<ModelStep>, v: View, v': View,
      raised: seq<Raised>, i: nat)
    requires Effect(v, v', raised) in Runs(cfg, run, script)
    requires i < |script| && script[i].Again? && script[i].stored == run.checkpoint.interruptId
    requires run.approvalId.Some? && run.checkpoint.interruptId in run.checkpoint.data
    requires
      var info := run.checkpoint.data[run.checkpoint.interruptId];
      cfg.audited && info.callId != NO_ID ==>
        !InLedger(v.ledger, run.conv, info.callId)
        && forall j :: 0 <= j < i ==>
             if script[j].Fresh? then script[j].callId != info.callId
             else script[j].stored != run.checkpoint.interruptId
    ensures
      var info := run.checkpoint.data[run.checkpoint.interruptId];
      exists k ::
        |v.entries| <= k < |v'.entries|
        && v'.entries[k] == Entry(run.conv, info.tool, info.args, info.callId, run.approvalId,
             v'.entries[k].inv, run.exec)
        && (cfg.audited ==> HasRow(v'.ledger, v'.entries[k], script[i].output))
  {
    EnteredAt(cfg, run, script, v, v', raised, i);
  }

  lemma {:induction false} EnteredAt(cfg: Config, run: Setting, script: seq<ModelStep>, v: View, v': View,
      raised: seq<Raised>, i: nat)
    requires Effect(v, v', raised) in Runs(cfg, run, script) && i < |script| && Enters(cfg, run, v.ledger, script, i)
    ensures exists k ::
        |v.entries| <= k < |v'.entries|
        && v'.entries[k] == EntryOf(run.conv, CallMade(cfg, run, script[i]), v'.entries[k].inv, run.exec)
        && (cfg.audited ==> HasRow(v'.ledger, v'.entries[k], script[i].output))
  {
    var news, picks :| v'.entries == v.entries + news
      && EntersFirst(cfg, run, script, |script|, v.ledger, v'.ledger, news, picks);
    assert i in Entering(cfg, run, v.ledger, script);
    var k :| 0 <= k < |picks| && picks[k] == i;
    assert EntryAt(cfg, run, script[i], v.ledger, v'.ledger, news[k]);
    assert v'.entries[|v.entries| + k] == news[k];
  }

  // The entry is that of a step of the script.
  predicate EntryOfStep(cfg: Config, run: Setting, step: ModelStep, entry: Entry) {
    entry.conv == run.conv && entry.exec == run.exec &&
      match step
      case Fresh(tool, args, callId, _) =>
        && (run.conv, tool) !in cfg.sensitive
        && entry.tool == tool && entry.args == args && entry.callId == callId && entry.approval == None
      case Again(stored, _) =>
        && run.approvalId.Some? && entry.approval == run.approvalId
        && stored == run.checkpoint.interruptId && stored in run.checkpoint.data
        && var info := run.checkpoint.data[stored];
           entry.tool == info.tool && entry.args == info.args && entry.callId == info.callId
  }

  /** No other executor is entered: each new entry is that of a later step than the one before it. */
  lemma {:induction false} NothingElseIsEntered(cfg: Config, run: Setting, script: seq<ModelStep>, v: View, v': View,
      raised: seq<Raised>)
    returns (steps: seq<nat>)
    requires Effect(v, v', raised) in Runs(cfg, run, script)
    ensures |v'.entries| == |v.entries| + |steps| && v.entries <= v'.entries && |steps| <= |script|
    ensures forall k, l :: 0 <= k < l < |steps| ==> steps[k] < steps[l]
    ensures forall k :: 0 <= k < |steps| ==>
      steps[k] < |script| && EntryOfStep(cfg, run, script[steps[k]], v'.entries[|v.entries| + k])
  {
    var news, picks :| v'.entries == v.entries + news
      && EntersFirst(cfg, run, script, |script|, v.ledger, v'.ledger, news, picks);
    steps := picks;
    forall k | 0 <= k < |steps|
      ensures steps[k] < |script| && EntryOfStep(cfg, run, script[steps[k]], v'.entries[|v.entries| + k])
    {
      assert EntryAt(cfg, run, script[picks[k]], v.ledger, v'.ledger, news[k]);
    }
    if steps != [] {
      AtLeastIndex(steps, |steps| - 1);
    }
  }

  lemma {:induction false} AtLeastIndex(picks: seq<nat>, k: nat)
    requires k < |picks| && forall i, j :: 0 <= i < j < |picks| ==> picks[i] < picks[j]
    ensures picks[k] >= k
  {
    if k > 0 {
      AtLeastIndex(picks, k - 1);
    }
  }

  /** A fresh call of a sensitive tool leaves one new pending approval for it, and an interrupt that carries it. */
  lemma {:induction false} SensitiveIsAsked(cfg: Config, run: Setting, script: seq<ModelStep>, v: View, v': View,
      raised: seq<Raised>, i: nat)
    requires Effect(v, v', raised) in Runs(cfg, run, script)
    requires i < |script| && script[i].Fresh? && (run.conv, script[i].tool) in cfg.sensitive
    ensures exists k ::
        0 <= k < |raised|
        && raised[k].info == Info(raised[k].info.approvalId, run.conv, script[i].tool, script[i].args, script[i].callId)
        && raised[k].info.approvalId in v'.approvals
        && raised[k].info.approvalId !in v.approvals
        && var a := v'.approvals[raised[k].info.approvalId];
           a.status == A.Pending && a.exec == A.NotStarted && a.attempts == 0 && a.createdAt == run.at
           && a.workspaceId == run.workspaceId && a.conversationId == run.conv
           && a.action == script[i].tool && a.payload == script[i].args
  {
    var asks :| AsksFirst(cfg, run, script, |script|, v.approvals, v'.approvals, raised, asks);
    assert i in Interrupting(cfg, run, script);
    var k :| 0 <= k < |asks| && asks[k] == i;
    assert RaisedAt(run, script[asks[k]], v.approvals, v'.approvals, raised[k].info);
  }

  /** A call made again that the resume does not target is interrupted under the approval it has. */
  lemma {:induction false} OtherIsRaisedAgain(cfg: Config, run: Setting, script: seq<ModelStep>, v: View, v': View,
      raised: seq<Raised>, i: nat)
    requires Effect(v, v', raised) in Runs(cfg, run, script) && run.approvalId.Some?
    requires i < |script| && script[i].Again? && script[i].stored in run.checkpoint.data
    requires script[i].stored != run.checkpoint.interruptId
    ensures exists k :: 0 <= k < |raised| && raised[k].info == run.checkpoint.data[script[i].stored]
  {
    var asks :| AsksFirst(cfg, run, script, |script|, v.approvals, v'.approvals, raised, asks);
    assert i in Interrupting(cfg, run, script);
    var k :| 0 <= k < |asks| && asks[k] == i;
    assert RaisedAt(run, script[asks[k]], v.approvals, v'.approvals, raised[k].info);
  }

  /** No other approval is asked for, and none that there was is changed but the one that is resumed. */
  lemma {:induction false} NothingElseIsAsked(cfg: Config, run: Setting, script: seq<ModelStep>, v: View, v': View,
      raised: seq<Raised>, id: Id)
    requires Effect(v, v', raised) in Runs(cfg, run, script)
    ensures id in v.approvals ==>
      id in v'.approvals && v'.approvals[id] == v.approvals[id]
    ensures id in v'.approvals && id !in v.approvals ==> exists k, i ::
        0 <= k < |raised| && raised[k].info.approvalId == id
        && 0 <= i < |script| && script[i].Fresh? && (run.conv, script[i].tool) in cfg.sensitive
        && raised[k].info == Info(id, run.conv, script[i].tool, script[i].args, script[i].callId)
  {
    var asks :| AsksFirst(cfg, run, script, |script|, v.approvals, v'.approvals, raised, asks);
    if id in v'.approvals && id !in v.approvals {
      var k :| 0 <= k < |asks| && IsNew(script, asks, k) && raised[k].info.approvalId == id;
      var i := asks[k];
      assert i in asks;
      assert i in Interrupting(cfg, run, script);
      assert RaisedAt(run, script[i], v.approvals, v'.approvals, raised[k].info);
    }
  }
}
