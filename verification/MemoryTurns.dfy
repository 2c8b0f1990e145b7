/** The conversation-turn part of the in-memory agent store, each method proved against Turns. */
module MemoryTurns {
  import opened Prelude
  import opened Turns

  class MemoryAgentStore {
    var conversations: map<Id, ConvStatus>
    var conversationTurns: map<Id, Turn>
    var messages: map<Id, seq<Message>>

    ghost function State(): Store
      reads this
    {
      Store(conversations, conversationTurns, messages)
    }

    constructor ()
      ensures State() == Empty()
    {
      conversations, conversationTurns, messages := map[], map[], map[];
    }

    method CreateConversation(conv: Id)
      modifies this
      ensures State() == Turns.CreateConversation(old(State()), conv)
    {
      conversations := conversations[conv := Active];
      messages := messages[conv := []];
    }

    method ClaimConversationTurn(conv: Id, resume: bool, now: int) returns (r: Option<TurnToken>)
      modifies this
      ensures (State(), r) == Turns.Claim(old(State()), conv, resume, now)
    {
      if conv !in conversations {
        return None;
      }
      var turn := if conv in conversationTurns then conversationTurns[conv] else Turn(0, NoTurn, None);
      if turn.token != NoTurn && After(turn.leaseUntil, now) {
        return None;
      }
      var allowed := conversations[conv] == Active;
      if resume {
        allowed := conversations[conv] == AwaitingApproval || conversations[conv] == Active;
      }
      if !allowed && !(conversations[conv] == Running && Before(turn.leaseUntil, now)) {
        return None;
      }
      turn := turn.(revision := turn.revision + 1);
      turn := turn.(token := TurnToken(now, turn.revision));
      turn := turn.(leaseUntil := Some(now + LEASE));
      conversationTurns := conversationTurns[conv := turn];
      conversations := conversations[conv := Running];
      return Some(turn.token);
    }

    method RenewConversationTurn(conv: Id, token: TurnToken, now: int) returns (ok: bool)
      modifies this
      ensures (State(), ok) == Turns.Renew(old(State()), conv, token, now)
    {
      if conv !in conversationTurns || conv !in conversations || conversationTurns[conv].token != token
         || conversations[conv] != Running {
        return false;
      }
      conversationTurns := conversationTurns[conv := conversationTurns[conv].(leaseUntil := Some(now + LEASE))];
      return true;
    }

    method CommitConversationTurn(conv: Id, token: TurnToken, batch: seq<Option<Message>>, next: ConvStatus)
        returns (ok: bool)
      modifies this
      ensures (State(), ok) == Turns.Commit(old(State()), conv, token, batch, next)
    {
      if conv !in conversationTurns || conv !in conversations || conversationTurns[conv].token != token
         || conversations[conv] != Running {
        return false;
      }
      var i := 0;
      while i < |batch|
        invariant 0 <= i <= |batch|
        invariant conversations == old(conversations) && conversationTurns == old(conversationTurns)
        invariant messages == Appended(old(messages), conv, Present(batch[..i]))
      {
        PresentSnoc(batch, i);
        if batch[i].Some? {
          AppendedOneMore(old(messages), conv, Present(batch[..i]), batch[i].value);
          var log := if conv in messages then messages[conv] else [];
          messages := messages[conv := log + [batch[i].value]];
        }
        i := i + 1;
      }
      assert batch[..i] == batch;
      conversationTurns := conversationTurns[conv := conversationTurns[conv].(token := NoTurn, leaseUntil := None)];
      conversations := conversations[conv := next];
      return true;
    }

    method ReleaseConversationTurn(conv: Id, token: TurnToken, next: ConvStatus) returns (ok: bool)
      modifies this
      ensures (State(), ok) == Turns.Release(old(State()), conv, token, next)
    {
      ok := CommitConversationTurn(conv, token, [], next);
    }
  }

  function Appended(messages: map<Id, seq<Message>>, conv: Id, batch: seq<Message>): map<Id, seq<Message>> {
    if batch == [] then messages
    else messages[conv := (if conv in messages then messages[conv] else []) + batch]
  }

  lemma {:induction false} AppendedOneMore(messages: map<Id, seq<Message>>, conv: Id, batch: seq<Message>, m: Message)
    ensures Appended(Appended(messages, conv, batch), conv, [m]) == Appended(messages, conv, batch + [m])
  {
    var log := if conv in messages then messages[conv] else [];
    assert batch == [] ==> batch + [m] == [m];
    assert log + (batch + [m]) == log + batch + [m];
    assert messages[conv := log + batch][conv := log + batch + [m]] == messages[conv := log + batch + [m]];
  }

  lemma {:induction false} PresentSnoc(batch: seq<Option<Message>>, i: nat)
    requires i < |batch|
    ensures Present(batch[..i + 1]) == if batch[i].Some? then Present(batch[..i]) + [batch[i].value]
      else Present(batch[..i])
  {
    if i == 0 {
      assert batch[..1] == [batch[0]];
    } else {
      assert batch[..i + 1][1..] == batch[1..][..i] && batch[..i][1..] == batch[1..][..i - 1];
      PresentSnoc(batch[1..], i - 1);
    }
  }
}
