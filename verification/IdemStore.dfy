/**
 The two things the idempotency middleware keeps: saved responses with their time to live, and one counted
 lock per business key.  The functions specify one call each; MemoryIdem holds the objects whose methods update
 the maps.
 */
module IdemStore {
  import opened Prelude

  const TTL: int := 86_400_000_000_000

  datatype Response = Response(status: int, body: string)
  datatype Saved = Saved(response: Response, requestHash: Id)
  datatype Entry = Entry(value: Saved, expiresAt: Option<int>)

  type Store = map<Id, Entry>

  predicate Expired(e: Entry, now: int) {
    e.expiresAt.Some? && now > e.expiresAt.value
  }

  // Get drops an entry it finds expired.
  function Get(s: Store, key: Id, now: int): (Store, Option<Saved>) {
    if key !in s then (s, None)
    else if Expired(s[key], now) then (s - {key}, None)
    else (s, Some(s[key].value))
  }

  function Set(s: Store, key: Id, value: Saved, ttl: int, now: int): Store {
    s[key := Entry(value, if ttl > 0 then Some(now + ttl) else None)]
  }

  // ---- locks ----

  // A lock object, named by the order of its allocation: who refers to it, and who holds its mutex.
  datatype Lock = Lock(refs: nat, holder: Option<nat>)

  datatype Table = Table(locks: map<Id, nat>, objects: map<nat, Lock>, created: nat)

  const NO_LOCKS := Table(map[], map[], 0)

  // The first critical section of acquire: find or make the key's lock, and count one more reference.
  function Enter(t: Table, key: Id): (Table, nat) {
    if key in t.locks && t.locks[key] in t.objects then
      var l := t.locks[key];
      (t.(objects := t.objects[l := t.objects[l].(refs := t.objects[l].refs + 1)]), l)
    else
      var l := t.created;
      (Table(t.locks[key := l], t.objects[l := Lock(1, None)], l + 1), l)
  }

  function Seize(t: Table, l: nat, thread: nat): Table
    requires l in t.objects
  {
    t.(objects := t.objects[l := t.objects[l].(holder := Some(thread))])
  }

  function Free(t: Table, l: nat): Table
    requires l in t.objects
  {
    t.(objects := t.objects[l := t.objects[l].(holder := None)])
  }

  // The second critical section, in the release closure.
  function Leave(t: Table, key: Id, l: nat): Table
    requires l in t.objects && t.objects[l].refs > 0
  {
    var refs := t.objects[l].refs - 1;
    Table(if refs == 0 then t.locks - {key} else t.locks, t.objects[l := t.objects[l].(refs := refs)], t.created)
  }
}
