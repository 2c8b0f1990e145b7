/** The idempotency middleware's saved responses and counted locks, updated in place. */
module MemoryIdem {
  import opened Prelude
  import opened IdemStore

  class MemoryIdemStore {
    var m: Store

    constructor ()
      ensures m == map[]
    {
      m := map[];
    }

    method Get(key: Id, now: int) returns (value: Option<Saved>)
      modifies this
      ensures (m, value) == IdemStore.Get(old(m), key, now)
    {
      if key !in m {
        return None;
      }
      var entry := m[key];
      if entry.expiresAt.Some? && now > entry.expiresAt.value {
        m := m - {key};
        return None;
      }
      return Some(entry.value);
    }

    method Set(key: Id, value: Saved, ttl: int, now: int)
      modifies this
      ensures m == IdemStore.Set(old(m), key, value, ttl, now)
    {
      var expiresAt: Option<int> := None;
      if ttl > 0 {
        expiresAt := Some(now + ttl);
      }
      m := m[key := Entry(value, expiresAt)];
    }
  }

  class KeyedLocks {
    var locks: map<Id, nat>
    var objects: map<nat, Lock>
    var created: nat

    ghost function State(): Table
      reads this
    {
      Table(locks, objects, created)
    }

    constructor ()
      ensures State() == NO_LOCKS
    {
      locks, objects, created := map[], map[], 0;
    }

    method Enter(key: Id) returns (l: nat)
      modifies this
      ensures (State(), l) == IdemStore.Enter(old(State()), key)
    {
      if key in locks && locks[key] in objects {
        l := locks[key];
      } else {
        l := created;
        created := created + 1;
        objects := objects[l := Lock(0, None)];
        locks := locks[key := l];
      }
      objects := objects[l := objects[l].(refs := objects[l].refs + 1)];
      assert objects == old(objects)[l := objects[l]];
    }

    method Leave(key: Id, l: nat)
      requires l in objects && objects[l].refs > 0
      modifies this
      ensures State() == IdemStore.Leave(old(State()), key, l)
    {
      objects := objects[l := objects[l].(refs := objects[l].refs - 1)];
      if objects[l].refs == 0 {
        locks := locks - {key};
      }
    }
  }
}
