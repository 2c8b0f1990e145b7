/**
 Conversation turns: at most one Chat or Resume works on a conversation at a time.  A claim issues a
 fenced token with a two-minute lease, a commit appends one batch of messages and gives the token back.
 MemoryTurns holds the store itself; TurnRuns says what holds over whole runs.
 */
module Turns {
  import opened Prelude

  datatype ConvStatus = Active | AwaitingApproval | Running

  datatype Role = User | Assistant
  datatype Message = Message(role: Role, content: string)

  // fmt.Sprintf("turn-%d-%d", now, revision), kept as the two numbers it is printed from.
  datatype TurnToken = NoTurn | TurnToken(nano: int, revision: nat)

  datatype Turn = Turn(revision: nat, token: TurnToken, leaseUntil: Option<int>)

  // `turns` has no entry for a conversation that was never claimed; reading it gives the zero turn.
  datatype Store = Store(status: map<Id, ConvStatus>, turns: map<Id, Turn>, messages: map<Id, seq<Message>>)

  function Empty(): Store {
    Store(map[], map[], map[])
  }

  const ZERO_TURN := Turn(0, NoTurn, None)

  function TurnOf(s: Store, conv: Id): Turn {
    if conv in s.turns then s.turns[conv] else ZERO_TURN
  }

  function CreateConversation(s: Store, conv: Id): Store {
    s.(status := s.status[conv := Active], messages := s.messages[conv := []])
  }

  predicate Allowed(status: ConvStatus, resume: bool) {
    status == Active || (resume && status == AwaitingApproval)
  }

  // The guard of ClaimConversationTurn.
  predicate Claimable(status: ConvStatus, turn: Turn, resume: bool, now: int) {
    && !(turn.token != NoTurn && After(turn.leaseUntil, now))
    && (Allowed(status, resume) || (status == Running && Before(turn.leaseUntil, now)))
  }

  function Claim(s: Store, conv: Id, resume: bool, now: int): (Store, Option<TurnToken>) {
    if conv !in s.status || !Claimable(s.status[conv], TurnOf(s, conv), resume, now) then (s, None)
    else
      var revision := TurnOf(s, conv).revision + 1;
      var token := TurnToken(now, revision);
      (s.(status := s.status[conv := Running], turns := s.turns[conv := Turn(revision, token, Some(now + LEASE))]),
       Some(token))
  }

  predicate Holds(s: Store, conv: Id, token: TurnToken) {
    conv in s.turns && conv in s.status && s.turns[conv].token == token && s.status[conv] == Running
  }

  function Renew(s: Store, conv: Id, token: TurnToken, now: int): (Store, bool) {
    if !Holds(s, conv, token) then (s, false)
    else (s.(turns := s.turns[conv := s.turns[conv].(leaseUntil := Some(now + LEASE))]), true)
  }

  // A batch may hold nil messages; a commit skips them.
  function Present(batch: seq<Option<Message>>): seq<Message> {
    if batch == [] then []
    else (if batch[0].Some? then [batch[0].value] else []) + Present(batch[1..])
  }

  function MessagesOf(s: Store, conv: Id): seq<Message> {
    if conv in s.messages then s.messages[conv] else []
  }

  function Commit(s: Store, conv: Id, token: TurnToken, batch: seq<Option<Message>>, next: ConvStatus): (Store, bool) {
    if !Holds(s, conv, token) then (s, false)
    else
      (s.(status := s.status[conv := next],
          turns := s.turns[conv := s.turns[conv].(token := NoTurn, leaseUntil := None)],
          messages := if Present(batch) == [] then s.messages
                      else s.messages[conv := MessagesOf(s, conv) + Present(batch)]),
       true)
  }

  function Release(s: Store, conv: Id, token: TurnToken, next: ConvStatus): (Store, bool) {
    Commit(s, conv, token, [], next)
  }
}
