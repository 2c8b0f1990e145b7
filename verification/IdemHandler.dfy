/** The idempotency middleware itself: one request from the lock to the release. */
module IdemHandler {
  import opened Prelude
  import opened IdemStore
  import opened MemoryIdem
  import I = Idempotency

  // What one request does to the saved responses: `now` is when it looks, `later` when it saves.
  function Served(s: Store, key: Id, hash: Id, outcome: I.Outcome, now: int, later: int): (Store, Option<I.Answer>) {
    var (looked, found) := Get(s, key, now);
    var answer := if found.None? then None else I.ReplayResponse(found.value, hash);
    if answer.Some? then (looked, answer)
    else if outcome.Answered? && I.Successful(outcome.response) then
      (Set(looked, key, Saved(outcome.response, hash), TTL, later), None)
    else (looked, None)
  }

  class Middleware {
    const locks: KeyedLocks
    const store: MemoryIdemStore

    constructor ()
      ensures fresh(locks) && fresh(store) && locks.State() == NO_LOCKS && store.m == map[]
    {
      locks := new KeyedLocks();
      store := new MemoryIdemStore();
    }

    /**
     A request alone: it replays or conflicts without the handler, or runs it and saves a success.  Whichever
     way it ends, and be it in a panic of the handler, the table of locks names what it named before.
     */
    method Handle(key: Id, hash: Id, outcome: I.Outcome, now: int, later: int) returns (answer: Option<I.Answer>)
      requires I.KeysOk(locks.State())
      modifies locks, store
      ensures (store.m, answer) == Served(old(store.m), key, hash, outcome, now, later)
      ensures locks.locks == old(locks.locks)
      ensures forall l :: l in old(locks.objects) ==> l in locks.objects && locks.objects[l] == old(locks.objects)[l]
    {
      var l := locks.Enter(key);
      var found := store.Get(key, now);
      answer := None;
      if found.Some? {
        answer := I.ReplayResponse(found.value, hash);
      }
      if answer.None? && outcome.Answered? && 200 <= outcome.response.status < 300 {
        store.Set(key, Saved(outcome.response, hash), TTL, later);
      }
      locks.Leave(key, l);
    }
  }

  /**
   A request after a success, whatever its status from 200 to 299: within a day the same body gets that success and
   another body a conflict, later the handler is asked again.
   */
  lemma {:induction false} SecondIsReplayed(s: Store, key: Id, hash: Id, hash': Id, r: Response,
      outcome': I.Outcome, now: int, later: int, now': int, later': int)
    requires hash != NO_ID && 200 <= r.status < 300
    requires Served(s, key, hash, I.Answered(r), now, later).1.None? && later <= now'
    ensures
      var first := Served(s, key, hash, I.Answered(r), now, later).0;
      var (second, answer) := Served(first, key, hash', outcome', now', later');
      if now' <= later + 24 * 3_600_000_000_000 then
        second == first && answer == Some(if hash' == hash then I.Replay(r) else I.Conflict)
      else answer == None
  {
    var first := Served(s, key, hash, I.Answered(r), now, later).0;
    assert first[key] == Entry(Saved(r, hash), Some(later + TTL));
  }

  /** What the handler answers with any other status, or a panic of it, is saved for no key. */
  lemma {:induction false} FailuresAreNotSaved(s: Store, key: Id, hash: Id, outcome: I.Outcome, now: int, later: int)
    requires outcome.Answered? ==> !(200 <= outcome.response.status < 300)
    ensures
      var s' := Served(s, key, hash, outcome, now, later).0;
      forall k :: k in s' ==> k in s && s'[k] == s[k]
  {
  }
}
