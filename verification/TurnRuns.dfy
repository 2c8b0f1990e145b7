/** Whole runs of the turn store: claims, renewals and commits by any number of callers, in any order. */
module TurnRuns {
  import opened Prelude
  import opened Turns

  datatype Event =
    | DoCreate(conv: Id)
    | DoClaim(conv: Id, resume: bool, now: int)
    | DoRenew(conv: Id, token: TurnToken, now: int)
    | DoCommit(conv: Id, token: TurnToken, batch: seq<Option<Message>>, next: ConvStatus)

  function Step(s: Store, e: Event): (Store, bool) {
    match e
    case DoCreate(c) => (CreateConversation(s, c), true)
    case DoClaim(c, resume, now) => var (s', r) := Claim(s, c, resume, now); (s', r.Some?)
    case DoRenew(c, t, now) => Renew(s, c, t, now)
    case DoCommit(c, t, batch, next) => Commit(s, c, t, batch, next)
  }

  function Run(s: Store, es: seq<Event>): Store
    decreases |es|
  {
    if es == [] then s else Run(Step(s, es[0]).0, es[1..])
  }

  // Conversation ids are generated, afresh and never empty, and a turn ends in one of the two waiting statuses.
  predicate Legal(s: Store, e: Event) {
    match e
    case DoCreate(c) => c != NO_ID && c !in s.status
    case DoCommit(_, _, _, next) => next != Running
    case _ => true
  }

  predicate LegalRun(s: Store, es: seq<Event>)
    decreases |es|
  {
    es == [] || (Legal(s, es[0]) && LegalRun(Step(s, es[0]).0, es[1..]))
  }

  ghost predicate Inv(s: Store) {
    && NO_ID !in s.status
    && s.messages.Keys == s.status.Keys
    && s.turns.Keys <= s.status.Keys
    && forall c :: c in s.status ==> TurnOk(s.status[c], TurnOf(s, c))
  }

  predicate TurnOk(status: ConvStatus, turn: Turn) {
    && (turn.token != NoTurn <==> status == Running)
    && (turn.leaseUntil.Some? <==> status == Running)
    && (turn.token != NoTurn ==> turn.token.revision == turn.revision)
  }

  lemma {:induction false} StepKeepsInv(s: Store, e: Event)
    requires Inv(s) && Legal(s, e)
    ensures Inv(Step(s, e).0)
  {
    var s' := Step(s, e).0;
    forall c | c in s'.status
      ensures TurnOk(s'.status[c], TurnOf(s', c))
    {
      if e.conv != c {
        assert TurnOf(s', c) == TurnOf(s, c);
      }
    }
  }

  lemma {:induction false} RunKeepsInv(s: Store, es: seq<Event>)
    requires Inv(s) && LegalRun(s, es)
    ensures Inv(Run(s, es))
    decreases |es|
  {
    if es != [] {
      StepKeepsInv(s, es[0]);
      RunKeepsInv(Step(s, es[0]).0, es[1..]);
    }
  }

  /**
   In every reachable store a token is out, with a lease and the current revision, exactly while its
   conversation is running.
   */
  lemma {:induction false} HeldWhileRunning(es: seq<Event>, conv: Id)
    requires LegalRun(Empty(), es) && conv in Run(Empty(), es).status
    ensures
      var s := Run(Empty(), es);
      var turn := TurnOf(s, conv);
      && (s.status[conv] == Running <==> turn.token != NoTurn)
      && (s.status[conv] == Running <==> turn.leaseUntil.Some?)
      && (s.status[conv] == Running ==> turn.token.revision == turn.revision)
  {
    RunKeepsInv(Empty(), es);
  }

  // ---- waiting for approval ----

  // No resume claims the conversation.
  predicate NoResume(es: seq<Event>, conv: Id) {
    forall i :: 0 <= i < |es| ==> !(es[i].DoClaim? && es[i].conv == conv && es[i].resume)
  }

  /** A conversation that waits for approval keeps waiting, and no chat is let in, until a resume claims it. */
  lemma {:induction false} WaitingStays(s: Store, es: seq<Event>, conv: Id)
    requires Inv(s) && LegalRun(s, es) && NoResume(es, conv)
    requires conv in s.status && s.status[conv] == AwaitingApproval
    ensures conv in Run(s, es).status && Run(s, es).status[conv] == AwaitingApproval
    ensures forall now: int :: Claim(Run(s, es), conv, false, now).1.None?
    decreases |es|
  {
    if es != [] {
      StepKeepsInv(s, es[0]);
      assert forall i :: 0 <= i < |es[1..]| ==> es[1..][i] == es[i + 1];
      WaitingStays(Step(s, es[0]).0, es[1..], conv);
    }
  }

  // ---- the message log ----

  datatype Batch = Batch(token: TurnToken, messages: seq<Message>)

  // The accepted commits of one conversation in a run, in order.
  function Batches(s: Store, es: seq<Event>, conv: Id): seq<Batch>
    decreases |es|
  {
    if es == [] then []
    else
      var rest := Batches(Step(s, es[0]).0, es[1..], conv);
      if es[0].DoCommit? && es[0].conv == conv && Step(s, es[0]).1 then
        [Batch(es[0].token, Present(es[0].batch))] + rest
      else rest
  }

  function Flatten(bs: seq<Batch>): seq<Message> {
    if bs == [] then [] else bs[0].messages + Flatten(bs[1..])
  }

  // The least revision that can still commit.
  function Floor(s: Store, conv: Id): nat {
    TurnOf(s, conv).revision + (if TurnOf(s, conv).token == NoTurn then 1 else 0)
  }

  predicate Increasing(bs: seq<Batch>, floor: nat) {
    bs == [] || (bs[0].token != NoTurn && floor <= bs[0].token.revision
      && Increasing(bs[1..], bs[0].token.revision + 1))
  }

  lemma {:induction false} LowerFloor(bs: seq<Batch>, high: nat, low: nat)
    requires Increasing(bs, high) && low <= high
    ensures Increasing(bs, low)
  {
  }

  lemma {:induction false} IncreasingBatches(s: Store, es: seq<Event>, conv: Id)
    requires Inv(s) && LegalRun(s, es)
    ensures Increasing(Batches(s, es, conv), Floor(s, conv))
    decreases |es|
  {
    if es != [] {
      var s' := Step(s, es[0]).0;
      StepKeepsInv(s, es[0]);
      IncreasingBatches(s', es[1..], conv);
      LowerFloor(Batches(s', es[1..], conv), Floor(s', conv), Floor(s, conv));
    }
  }

  lemma {:induction false} LogGrowsByBatches(s: Store, es: seq<Event>, conv: Id)
    requires Inv(s) && LegalRun(s, es) && conv in s.status
    ensures conv in Run(s, es).messages && Run(s, es).messages[conv] == s.messages[conv] + Flatten(Batches(s, es, conv))
    decreases |es|
  {
    if es != [] {
      StepKeepsInv(s, es[0]);
      LogGrowsByBatches(Step(s, es[0]).0, es[1..], conv);
    }
  }

  /** From the empty store: a log is the concatenation of whole batches, whose revisions strictly increase. */
  lemma {:induction false} LogIsWholeBatches(es: seq<Event>, conv: Id)
    requires LegalRun(Empty(), es)
    ensures MessagesOf(Run(Empty(), es), conv) == Flatten(Batches(Empty(), es, conv))
    ensures Increasing(Batches(Empty(), es, conv), 1)
  {
    IncreasingBatches(Empty(), es, conv);
    LogFromAbsent(Empty(), es, conv);
  }

  lemma {:induction false} LogFromAbsent(s: Store, es: seq<Event>, conv: Id)
    requires Inv(s) && LegalRun(s, es) && conv !in s.status
    ensures MessagesOf(Run(s, es), conv) == Flatten(Batches(s, es, conv))
    decreases |es|
  {
    if es != [] {
      var s' := Step(s, es[0]).0;
      StepKeepsInv(s, es[0]);
      if conv in s'.status {
        LogGrowsByBatches(s', es[1..], conv);
      } else {
        LogFromAbsent(s', es[1..], conv);
      }
    }
  }

  // ---- fencing ----

  function CommitsWith(s: Store, es: seq<Event>, conv: Id, token: TurnToken): nat
    decreases |es|
  {
    if es == [] then 0
    else (if es[0].DoCommit? && es[0].conv == conv && es[0].token == token && Step(s, es[0]).1 then 1 else 0)
         + CommitsWith(Step(s, es[0]).0, es[1..], conv, token)
  }

  // Every renewal and commit made with this token in this run is refused, and so changes nothing.
  predicate AllRefused(s: Store, es: seq<Event>, conv: Id, token: TurnToken)
    decreases |es|
  {
    es == [] || (
      && ((es[0].DoRenew? || es[0].DoCommit?) && es[0].conv == conv && es[0].token == token ==>
        Step(s, es[0]) == (s, false))
      && AllRefused(Step(s, es[0]).0, es[1..], conv, token))
  }

  /** A superseded token never renews, appends a message or changes the status again. */
  lemma {:induction false} SupersededTokenStaysDead(s: Store, es: seq<Event>, conv: Id, token: TurnToken)
    requires Inv(s) && LegalRun(s, es)
    requires token != NoTurn && TurnOf(s, conv).token != token && token.revision <= TurnOf(s, conv).revision
    ensures AllRefused(s, es, conv, token) && CommitsWith(s, es, conv, token) == 0
    decreases |es|
  {
    if es != [] {
      StepKeepsInv(s, es[0]);
      SupersededTokenStaysDead(Step(s, es[0]).0, es[1..], conv, token);
    }
  }

  /** Each issued token commits at most once. */
  lemma {:induction false} TokenCommitsAtMostOnce(s: Store, es: seq<Event>, conv: Id, token: TurnToken)
    requires Inv(s) && LegalRun(s, es) && token != NoTurn
    ensures CommitsWith(s, es, conv, token) <= 1
    decreases |es|
  {
    if es != [] {
      var s' := Step(s, es[0]).0;
      StepKeepsInv(s, es[0]);
      if es[0].DoCommit? && es[0].conv == conv && es[0].token == token && Step(s, es[0]).1 {
        SupersededTokenStaysDead(s', es[1..], conv, token);
      } else {
        TokenCommitsAtMostOnce(s', es[1..], conv, token);
      }
    }
  }

  // ---- mutual exclusion within a lease ----

  // The events of the run happen no later than `until`, and none of them is made with the token.
  predicate OthersOnly(es: seq<Event>, conv: Id, token: TurnToken, until: int) {
    forall e <- es ::
      && (e.DoClaim? && e.conv == conv ==> e.now <= until)
      && ((e.DoRenew? || e.DoCommit?) && e.conv == conv ==> e.token != token)
  }

  /** While its lease lasts, the holder keeps the turn: whatever the others do, its commit is accepted. */
  lemma {:induction false} LeaseProtectsTurn(s: Store, es: seq<Event>, conv: Id)
    requires Inv(s) && LegalRun(s, es) && conv in s.status && s.status[conv] == Running
    requires OthersOnly(es, conv, TurnOf(s, conv).token, TurnOf(s, conv).leaseUntil.value)
    ensures Holds(Run(s, es), conv, TurnOf(s, conv).token)
    ensures TurnOf(Run(s, es), conv) == TurnOf(s, conv) && MessagesOf(Run(s, es), conv) == MessagesOf(s, conv)
    decreases |es|
  {
    if es != [] {
      StepKeepsInv(s, es[0]);
      var s' := Step(s, es[0]).0;
      assert es[0] in es && forall e <- es[1..] :: e in es;
      LeaseProtectsTurn(s', es[1..], conv);
    }
  }
}
