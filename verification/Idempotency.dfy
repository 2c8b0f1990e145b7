/**
 Idempotent replay under concurrency: any number of requests, each a thread that takes its key's lock, looks
 for a saved response, runs the handler if there is none, saves a successful response, and lets go.  One
 action is one critical section or one call.  The store works; the handler may answer anything, or panic.
 */
module Idempotency {
  import opened Prelude
  import opened IdemStore

  datatype Phase =
    | Arriving            // before acquire
    | Waiting             // counted, before the lock's mutex
    | Looking             // holds the mutex, before Get
    | Handling            // inside the handler
    | Saving(response: Response)
    | Unlocking           // deferred release, before the mutex is given back
    | Leaving             // before the reference is given back
    | Gone

  datatype Thread = Thread(key: Id, hash: Id, lock: nat, phase: Phase)

  // History: the responses saved, the handler's runs, and the answers given without it.
  datatype SaveEvent = SaveEvent(thread: nat, key: Id, saved: Saved, at: int)
  datatype RunEvent = RunEvent(key: Id, at: int, savesBefore: nat)
  datatype Answer = Replay(response: Response) | Conflict
  datatype AnswerEvent = AnswerEvent(key: Id, hash: Id, at: int, savesBefore: nat, answer: Answer)

  datatype Sys = Sys(now: int, table: Table, store: Store, threads: map<nat, Thread>,
                     saves: seq<SaveEvent>, runs: seq<RunEvent>, answers: seq<AnswerEvent>)

  const INIT := Sys(0, NO_LOCKS, map[], map[], [], [], [])

  datatype Outcome = Answered(response: Response) | Panicked

  datatype Action =
    | Tick(elapsed: nat)
    | Request(thread: nat, key: Id, hash: Id)
    | Advance(thread: nat, outcome: Outcome)

  predicate Successful(r: Response) {
    200 <= r.status < 300
  }

  // replayResponse: a saved response answers the request, with a conflict if the request differs.
  function ReplayResponse(saved: Saved, hash: Id): Option<Answer> {
    if !Successful(saved.response) then None
    else if saved.requestHash != NO_ID && saved.requestHash != hash then Some(Conflict)
    else Some(Replay(saved.response))
  }

  function StepLook(s: Sys, n: nat, t: Thread): Sys {
    var (store, found) := Get(s.store, t.key, s.now);
    var answer := if found.None? then None else ReplayResponse(found.value, t.hash);
    if answer.None? then
      s.(store := store, threads := s.threads[n := t.(phase := Handling)],
         runs := s.runs + [RunEvent(t.key, s.now, |s.saves|)])
    else
      s.(store := store, threads := s.threads[n := t.(phase := Unlocking)],
         answers := s.answers + [AnswerEvent(t.key, t.hash, s.now, |s.saves|, answer.value)])
  }

  function StepSave(s: Sys, n: nat, t: Thread, response: Response): Sys {
    var saved := Saved(response, t.hash);
    s.(store := Set(s.store, t.key, saved, TTL, s.now), threads := s.threads[n := t.(phase := Unlocking)],
       saves := s.saves + [SaveEvent(n, t.key, saved, s.now)])
  }

  function Step(s: Sys, n: nat, t: Thread, outcome: Outcome): Sys {
    match t.phase
    case Arriving =>
      var (table, l) := Enter(s.table, t.key);
      s.(table := table, threads := s.threads[n := t.(lock := l, phase := Waiting)])
    case Waiting =>
      if t.lock !in s.table.objects || s.table.objects[t.lock].holder.Some? then s
      else s.(table := Seize(s.table, t.lock, n), threads := s.threads[n := t.(phase := Looking)])
    case Looking => StepLook(s, n, t)
    case Handling =>
      s.(threads := s.threads[n := t.(phase :=
        if outcome.Answered? && Successful(outcome.response) then Saving(outcome.response) else Unlocking)])
    case Saving(response) => StepSave(s, n, t, response)
    case Unlocking =>
      if t.lock !in s.table.objects then s
      else s.(table := Free(s.table, t.lock), threads := s.threads[n := t.(phase := Leaving)])
    case Leaving =>
      if t.lock !in s.table.objects || s.table.objects[t.lock].refs == 0 then s
      else s.(table := Leave(s.table, t.key, t.lock), threads := s.threads[n := t.(phase := Gone)])
    case Gone => s
  }

  // The hash of a request body is never the empty string.
  function Next(s: Sys, a: Action): Sys {
    match a
    case Tick(elapsed) => s.(now := s.now + elapsed)
    case Request(n, key, hash) =>
      if n in s.threads || hash == NO_ID then s else s.(threads := s.threads[n := Thread(key, hash, 0, Arriving)])
    case Advance(n, outcome) => if n !in s.threads then s else Step(s, n, s.threads[n], outcome)
  }

  function Run(s: Sys, acts: seq<Action>): Sys
    decreases |acts|
  {
    if acts == [] then s else Run(Next(s, acts[0]), acts[1..])
  }

  // ---- the locks ----

  // Between acquire and the final decrement.
  predicate Refers(t: Thread) {
    !t.phase.Arriving? && !t.phase.Gone?
  }

  predicate HoldsMutex(t: Thread) {
    t.phase.Looking? || t.phase.Handling? || t.phase.Saving? || t.phase.Unlocking?
  }

  function Users(threads: map<nat, Thread>, l: nat): set<nat> {
    set n | n in threads && Refers(threads[n]) && threads[n].lock == l
  }

  // The table names existing, referenced locks, one for each key.
  ghost predicate KeysOk(t: Table) {
    && (forall k :: k in t.locks ==> t.locks[k] in t.objects && t.objects[t.locks[k]].refs > 0)
    && (forall k, k' :: k in t.locks && k' in t.locks && t.locks[k] == t.locks[k'] ==> k == k')
    && (forall l :: l in t.objects ==> l < t.created)
  }

  // A lock's count is the number of threads between acquire and the final decrement.
  ghost predicate RefsOk(t: Table, threads: map<nat, Thread>) {
    forall l :: l in t.objects ==> t.objects[l].refs == |Users(threads, l)|
  }

  // All of those threads share the one lock in the table for their key.
  predicate SharesLock(t: Table, k: Thread) {
    Refers(k) ==> k.key in t.locks && k.lock == t.locks[k.key]
  }

  ghost predicate SharedOk(t: Table, threads: map<nat, Thread>) {
    forall n :: n in threads ==> SharesLock(t, threads[n])
  }

  // The holder of a lock's mutex is the one thread that believes it holds it.
  predicate HolderOk(t: Table, threads: map<nat, Thread>, l: nat)
    requires l in t.objects
  {
    t.objects[l].holder.Some? ==>
      var n := t.objects[l].holder.value;
      n in threads && HoldsMutex(threads[n]) && threads[n].lock == l
  }

  ghost predicate HeldOk(t: Table, threads: map<nat, Thread>) {
    && (forall l :: l in t.objects ==> HolderOk(t, threads, l))
    && (forall n :: n in threads && HoldsMutex(threads[n]) ==>
          threads[n].lock in t.objects && t.objects[threads[n].lock].holder == Some(n))
  }

  ghost predicate LocksOk(t: Table, threads: map<nat, Thread>) {
    KeysOk(t) && RefsOk(t, threads) && SharedOk(t, threads) && HeldOk(t, threads)
  }

  // One thread moved: the users of every lock, before and after.
  lemma {:induction false} UsersAfter(threads: map<nat, Thread>, n: nat, t: Thread, l: nat)
    ensures Users(threads[n := t], l) == (Users(threads, l) - {n}) + (if Refers(t) && t.lock == l then {n} else {})
  {
  }

  // A thread moves on without changing whether and what it refers to.
  lemma {:induction false} MovingKeepsRefs(t: Table, t': Table, threads: map<nat, Thread>, n: nat, k: Thread)
    requires RefsOk(t, threads) && n in threads && k.lock == threads[n].lock && Refers(k) == Refers(threads[n])
    requires t'.objects.Keys == t.objects.Keys && forall l :: l in t.objects ==> t'.objects[l].refs == t.objects[l].refs
    ensures RefsOk(t', threads[n := k])
  {
    forall l | l in t.objects
      ensures Users(threads[n := k], l) == Users(threads, l)
    {
      UsersAfter(threads, n, k, l);
    }
  }

  // A change that touches neither the table's keys, nor any count, nor any mutex.
  lemma {:induction false} MovingKeepsLocks(t: Table, threads: map<nat, Thread>, n: nat, k: Thread)
    requires LocksOk(t, threads) && n in threads
    requires k.lock == threads[n].lock && k.key == threads[n].key
    requires Refers(k) == Refers(threads[n]) && HoldsMutex(k) == HoldsMutex(threads[n])
    ensures LocksOk(t, threads[n := k])
  {
    MovingKeepsRefs(t, t, threads, n, k);
    assert SharesLock(t, threads[n]) ==> SharesLock(t, k);
    forall l | l in t.objects
      ensures HolderOk(t, threads[n := k], l)
    {
      assert HolderOk(t, threads, l);
    }
  }

  // Taking a free mutex, or giving it back.
  lemma {:induction false} MutexKeepsLocks(t: Table, threads: map<nat, Thread>, n: nat, k: Thread, holder: Option<nat>)
    requires LocksOk(t, threads) && n in threads && Refers(k) && Refers(threads[n])
    requires k.lock == threads[n].lock && k.lock in t.objects && k.key == threads[n].key
    requires HoldsMutex(k) ==> t.objects[k.lock].holder == None && holder == Some(n)
    requires !HoldsMutex(k) ==> HoldsMutex(threads[n]) && holder == None
    ensures LocksOk(t.(objects := t.objects[k.lock := t.objects[k.lock].(holder := holder)]), threads[n := k])
  {
    var t' := t.(objects := t.objects[k.lock := t.objects[k.lock].(holder := holder)]);
    MovingKeepsRefs(t, t', threads, n, k);
    assert SharesLock(t, threads[n]) ==> SharesLock(t', k);
    assert forall m :: m in threads && SharesLock(t, threads[m]) ==> SharesLock(t', threads[m]);
    forall l | l in t'.objects
      ensures HolderOk(t', threads[n := k], l)
    {
      assert HolderOk(t, threads, l);
    }
  }

  lemma {:induction false} EnterKeepsRefs(t: Table, threads: map<nat, Thread>, n: nat, k: Thread)
    requires KeysOk(t) && RefsOk(t, threads) && SharedOk(t, threads)
    requires n in threads && !Refers(threads[n]) && Refers(k) && k.lock == Enter(t, k.key).1
    ensures RefsOk(Enter(t, k.key).0, threads[n := k])
  {
    var (t', l) := Enter(t, k.key);
    if l !in t.objects {
      forall m | m in threads && Refers(threads[m])
        ensures threads[m].lock != l
      {
        assert SharesLock(t, threads[m]);
      }
      assert Users(threads, l) == {};
    }
    forall i | i in t'.objects
      ensures t'.objects[i].refs == |Users(threads[n := k], i)|
    {
      UsersAfter(threads, n, k, i);
      assert n !in Users(threads, i);
    }
  }

  lemma {:induction false} EnterKeepsShared(t: Table, threads: map<nat, Thread>, n: nat, k: Thread)
    requires KeysOk(t) && SharedOk(t, threads) && n in threads && k.lock == Enter(t, k.key).1
    ensures KeysOk(Enter(t, k.key).0) && SharedOk(Enter(t, k.key).0, threads[n := k])
  {
    var t' := Enter(t, k.key).0;
    forall m | m in threads && m != n
      ensures SharesLock(t', threads[m])
    {
      assert SharesLock(t, threads[m]);
    }
  }

  lemma {:induction false} EnterKeepsHeld(t: Table, threads: map<nat, Thread>, n: nat, k: Thread)
    requires KeysOk(t) && HeldOk(t, threads) && n in threads && !HoldsMutex(threads[n]) && !HoldsMutex(k)
    ensures HeldOk(Enter(t, k.key).0, threads[n := k])
  {
    var t' := Enter(t, k.key).0;
    forall i | i in t'.objects
      ensures HolderOk(t', threads[n := k], i)
    {
      assert i in t.objects ==> HolderOk(t, threads, i);
    }
  }

  lemma {:induction false} EnterKeepsLocks(t: Table, threads: map<nat, Thread>, n: nat, k: Thread)
    requires LocksOk(t, threads) && n in threads && !Refers(threads[n])
    requires Refers(k) && !HoldsMutex(k) && k.lock == Enter(t, k.key).1
    ensures LocksOk(Enter(t, k.key).0, threads[n := k])
  {
    EnterKeepsRefs(t, threads, n, k);
    EnterKeepsShared(t, threads, n, k);
    EnterKeepsHeld(t, threads, n, k);
  }

  lemma {:induction false} LeaveKeepsRefs(t: Table, threads: map<nat, Thread>, n: nat, k: Thread)
    requires RefsOk(t, threads) && n in threads && Refers(threads[n]) && !Refers(k)
    requires k.lock == threads[n].lock && k.lock in t.objects
    ensures t.objects[k.lock].refs > 0 && RefsOk(Leave(t, k.key, k.lock), threads[n := k])
  {
    assert n in Users(threads, k.lock);
    forall i | i in t.objects
      ensures |Users(threads[n := k], i)| == |Users(threads, i)| - (if i == k.lock then 1 else 0)
    {
      UsersAfter(threads, n, k, i);
      assert i != k.lock ==> n !in Users(threads, i);
    }
  }

  lemma {:induction false} LeaveKeepsLocks(t: Table, threads: map<nat, Thread>, n: nat, k: Thread)
    requires LocksOk(t, threads) && n in threads && Refers(threads[n]) && !HoldsMutex(threads[n]) && !Refers(k)
    requires k.key == threads[n].key && k.lock == threads[n].lock && k.lock in t.objects
    ensures t.objects[k.lock].refs > 0 && LocksOk(Leave(t, k.key, k.lock), threads[n := k])
  {
    LeaveKeepsRefs(t, threads, n, k);
    var t' := Leave(t, k.key, k.lock);
    assert SharesLock(t, threads[n]);
    forall m | m in threads && m != n && Refers(threads[m])
      ensures SharesLock(t', threads[m])
    {
      assert SharesLock(t, threads[m]);
      assert threads[m].lock == k.lock ==> m in Users(threads[n := k], k.lock);
    }
    forall i | i in t'.objects
      ensures HolderOk(t', threads[n := k], i)
    {
      assert HolderOk(t, threads, i);
    }
  }

  lemma {:induction false} StepKeepsLocks(s: Sys, n: nat, outcome: Outcome)
    requires LocksOk(s.table, s.threads) && n in s.threads
    ensures LocksOk(Step(s, n, s.threads[n], outcome).table, Step(s, n, s.threads[n], outcome).threads)
  {
    var t := s.threads[n];
    var s' := Step(s, n, t, outcome);
    assert SharesLock(s.table, t);
    match t.phase
    case Arriving => EnterKeepsLocks(s.table, s.threads, n, s'.threads[n]);
    case Waiting =>
      if s' != s {
        MutexKeepsLocks(s.table, s.threads, n, s'.threads[n], Some(n));
      }
    case Unlocking => MutexKeepsLocks(s.table, s.threads, n, s'.threads[n], None);
    case Leaving => LeaveKeepsLocks(s.table, s.threads, n, t.(phase := Gone));
    case Gone =>
    case _ => MovingKeepsLocks(s.table, s.threads, n, s'.threads[n]);
  }

  lemma {:induction false} RequestKeepsLocks(t: Table, threads: map<nat, Thread>, n: nat, k: Thread)
    requires LocksOk(t, threads) && n !in threads && k.phase.Arriving?
    ensures LocksOk(t, threads[n := k])
  {
    forall l | l in t.objects
      ensures Users(threads[n := k], l) == Users(threads, l)
    {
      UsersAfter(threads, n, k, l);
    }
    forall l | l in t.objects
      ensures HolderOk(t, threads[n := k], l)
    {
      assert HolderOk(t, threads, l);
    }
  }

  lemma {:induction false} NextKeepsLocks(s: Sys, a: Action)
    requires LocksOk(s.table, s.threads)
    ensures LocksOk(Next(s, a).table, Next(s, a).threads)
  {
    match a
    case Tick(_) =>
    case Request(n, key, hash) =>
      if n !in s.threads && hash != NO_ID {
        RequestKeepsLocks(s.table, s.threads, n, Thread(key, hash, 0, Arriving));
      }
    case Advance(n, outcome) =>
      if n in s.threads {
        StepKeepsLocks(s, n, outcome);
      }
  }

  // ---- the saved responses ----

  // The last response saved for the key among the first n saves.
  function Last(saves: seq<SaveEvent>, n: nat, key: Id): Option<SaveEvent>
    requires n <= |saves|
  {
    if n == 0 then None
    else if saves[n - 1].key == key then Some(saves[n - 1])
    else Last(saves, n - 1, key)
  }

  predicate StoreHas(store: Store, key: Id, last: Option<SaveEvent>, now: int) {
    match last
    case None => key !in store
    case Some(e) =>
      if key in store then store[key] == Entry(e.saved, Some(e.at + TTL)) else now > e.at + TTL
  }

  ghost predicate StoreOk(s: Sys) {
    && (forall key :: StoreHas(s.store, key, Last(s.saves, |s.saves|, key), s.now))
    && (forall i :: 0 <= i < |s.saves| ==>
          s.saves[i].at <= s.now && Successful(s.saves[i].saved.response) && s.saves[i].saved.requestHash != NO_ID)
    && (forall i, j :: 0 <= i < j < |s.saves| ==> s.saves[i].at <= s.saves[j].at)
    && (forall n :: n in s.threads ==>
          s.threads[n].hash != NO_ID && (s.threads[n].phase.Saving? ==> Successful(s.threads[n].phase.response)))
  }

  // A run of the handler found every earlier saved response of its key expired.
  predicate RunOk(saves: seq<SaveEvent>, r: RunEvent) {
    r.savesBefore <= |saves| && forall i :: 0 <= i < r.savesBefore && saves[i].key == r.key ==> r.at > saves[i].at + TTL
  }

  // A request answered without the handler got the last saved response of its key, unexpired, if it sent the
  // same body, and a conflict if it did not.
  predicate AnswerOk(saves: seq<SaveEvent>, a: AnswerEvent) {
    a.savesBefore <= |saves|
    && var last := Last(saves, a.savesBefore, a.key);
       && last.Some? && a.at <= last.value.at + TTL
       && a.answer == if a.hash == last.value.saved.requestHash then Replay(last.value.saved.response) else Conflict
  }

  // Every run and every answer so far was right.
  ghost predicate PastOk(s: Sys) {
    && (forall i :: 0 <= i < |s.runs| ==> RunOk(s.saves, s.runs[i]))
    && (forall i :: 0 <= i < |s.answers| ==> AnswerOk(s.saves, s.answers[i]))
  }

  lemma {:induction false} LastIsLast(saves: seq<SaveEvent>, n: nat, key: Id)
    requires n <= |saves|
    ensures Last(saves, n, key).None? ==> forall i :: 0 <= i < n ==> saves[i].key != key
    ensures Last(saves, n, key).Some? ==>
      && (exists i :: 0 <= i < n && saves[i] == Last(saves, n, key).value)
      && Last(saves, n, key).value.key == key
    ensures Last(saves, n, key).Some? && (forall i, j :: 0 <= i < j < |saves| ==> saves[i].at <= saves[j].at) ==>
      forall i :: 0 <= i < n && saves[i].key == key ==> saves[i].at <= Last(saves, n, key).value.at
  {
    if n > 0 && saves[n - 1].key != key {
      LastIsLast(saves, n - 1, key);
    }
  }

  lemma {:induction false} LastPrefix(saves: seq<SaveEvent>, e: SaveEvent, n: nat, key: Id)
    requires n <= |saves|
    ensures Last(saves + [e], n, key) == Last(saves, n, key)
  {
    if n > 0 {
      LastPrefix(saves, e, n - 1, key);
    }
  }

  lemma {:induction false} LookKeepsPast(s: Sys, n: nat)
    requires StoreOk(s) && PastOk(s) && n in s.threads && s.threads[n].phase.Looking?
    ensures StoreOk(StepLook(s, n, s.threads[n])) && PastOk(StepLook(s, n, s.threads[n]))
  {
    var t := s.threads[n];
    var s' := StepLook(s, n, t);
    var last := Last(s.saves, |s.saves|, t.key);
    LastIsLast(s.saves, |s.saves|, t.key);
    assert StoreHas(s.store, t.key, last, s.now);
    forall key
      ensures StoreHas(s'.store, key, Last(s.saves, |s.saves|, key), s.now)
    {
      assert StoreHas(s.store, key, Last(s.saves, |s.saves|, key), s.now);
    }
    if s'.threads[n].phase.Handling? {
      assert RunOk(s.saves, s'.runs[|s.runs|]);
    } else {
      assert AnswerOk(s.saves, s'.answers[|s.answers|]);
    }
  }

  lemma {:induction false} LastSaved(saves: seq<SaveEvent>, e: SaveEvent, key: Id)
    ensures Last(saves + [e], |saves| + 1, key) == if e.key == key then Some(e) else Last(saves, |saves|, key)
  {
    LastPrefix(saves, e, |saves|, key);
  }

  // One more saved response changes nothing about the past.
  lemma {:induction false} SavingKeepsPast(s: Sys, e: SaveEvent)
    requires PastOk(s)
    ensures PastOk(s.(saves := s.saves + [e]))
  {
    forall i | 0 <= i < |s.runs|
      ensures RunOk(s.saves + [e], s.runs[i])
    {
      assert RunOk(s.saves, s.runs[i]);
    }
    forall i | 0 <= i < |s.answers|
      ensures AnswerOk(s.saves + [e], s.answers[i])
    {
      assert AnswerOk(s.saves, s.answers[i]);
      LastPrefix(s.saves, e, s.answers[i].savesBefore, s.answers[i].key);
    }
  }

  lemma {:induction false} SaveKeepsPast(s: Sys, n: nat)
    requires StoreOk(s) && PastOk(s) && n in s.threads && s.threads[n].phase.Saving?
    ensures
      var s' := StepSave(s, n, s.threads[n], s.threads[n].phase.response);
      StoreOk(s') && PastOk(s')
  {
    var t := s.threads[n];
    var s' := StepSave(s, n, t, t.phase.response);
    var e := SaveEvent(n, t.key, Saved(t.phase.response, t.hash), s.now);
    SavingKeepsPast(s, e);
    assert forall i :: 0 <= i < |s'.runs| ==> RunOk(s'.saves, s'.runs[i]);
    forall key
      ensures StoreHas(s'.store, key, Last(s'.saves, |s'.saves|, key), s.now)
    {
      LastSaved(s.saves, e, key);
      assert StoreHas(s.store, key, Last(s.saves, |s.saves|, key), s.now);
    }
  }

  lemma {:induction false} TickKeepsStore(s: Sys, elapsed: nat)
    requires StoreOk(s)
    ensures StoreOk(s.(now := s.now + elapsed))
  {
    forall key
      ensures StoreHas(s.store, key, Last(s.saves, |s.saves|, key), s.now + elapsed)
    {
      assert StoreHas(s.store, key, Last(s.saves, |s.saves|, key), s.now);
    }
  }

  // A step that neither looks nor saves.
  lemma {:induction false} OtherStepsKeepPast(s: Sys, s': Sys)
    requires StoreOk(s) && PastOk(s)
    requires s'.now == s.now && s'.store == s.store && s'.saves == s.saves && s'.runs == s.runs
      && s'.answers == s.answers
    requires forall n :: n in s'.threads && !(n in s.threads && s'.threads[n] == s.threads[n]) ==>
      s'.threads[n].hash != NO_ID && (s'.threads[n].phase.Saving? ==> Successful(s'.threads[n].phase.response))
    ensures StoreOk(s') && PastOk(s')
  {
  }

  lemma {:induction false} StepKeepsPast(s: Sys, n: nat, outcome: Outcome)
    requires StoreOk(s) && PastOk(s) && n in s.threads
    ensures StoreOk(Step(s, n, s.threads[n], outcome)) && PastOk(Step(s, n, s.threads[n], outcome))
  {
    var t := s.threads[n];
    match t.phase
    case Looking => LookKeepsPast(s, n);
    case Saving(_) => SaveKeepsPast(s, n);
    case _ => OtherStepsKeepPast(s, Step(s, n, t, outcome));
  }

  lemma {:induction false} NextKeepsPast(s: Sys, a: Action)
    requires StoreOk(s) && PastOk(s)
    ensures StoreOk(Next(s, a)) && PastOk(Next(s, a))
  {
    match a
    case Tick(elapsed) => TickKeepsStore(s, elapsed);
    case Request(_, _, _) => OtherStepsKeepPast(s, Next(s, a));
    case Advance(n, outcome) => if n in s.threads { StepKeepsPast(s, n, outcome); }
  }

  // ---- every run ----

  ghost predicate Inv(s: Sys) {
    LocksOk(s.table, s.threads) && StoreOk(s) && PastOk(s)
  }

  lemma {:induction false} RunKeepsInv(s: Sys, acts: seq<Action>)
    requires Inv(s)
    ensures Inv(Run(s, acts))
    decreases |acts|
  {
    if acts != [] {
      NextKeepsLocks(s, acts[0]);
      NextKeepsPast(s, acts[0]);
      RunKeepsInv(Next(s, acts[0]), acts[1..]);
    }
  }

  /**
   In every run: a lock's count is the number of threads between acquire and the final decrement, those of one
   key share one lock, and a lock is in the table only while somebody refers to it.
   */
  lemma {:induction false} CountsAreUsers(acts: seq<Action>)
    ensures
      var s := Run(INIT, acts);
      && RefsOk(s.table, s.threads) && SharedOk(s.table, s.threads)
      && forall k :: k in s.table.locks <==> exists n :: n in s.threads && Refers(s.threads[n]) && s.threads[n].key == k
  {
    RunKeepsInv(INIT, acts);
    var s := Run(INIT, acts);
    forall k | k in s.table.locks
      ensures exists n :: n in s.threads && Refers(s.threads[n]) && s.threads[n].key == k
    {
      var users := Users(s.threads, s.table.locks[k]);
      assert |users| > 0;
      var n :| n in users;
      assert SharesLock(s.table, s.threads[n]);
    }
    assert forall n :: n in s.threads ==> SharesLock(s.table, s.threads[n]);
  }

  /** When every thread has let go, no lock is left in the table. */
  lemma {:induction false} NothingLeaks(acts: seq<Action>)
    requires forall n :: n in Run(INIT, acts).threads ==> !Refers(Run(INIT, acts).threads[n])
    ensures Run(INIT, acts).table.locks == map[]
  {
    CountsAreUsers(acts);
  }

  /** Of the requests with one key, at most one is between taking the mutex and giving it back. */
  lemma {:induction false} OneAtATime(acts: seq<Action>, n: nat, m: nat)
    requires n in Run(INIT, acts).threads && m in Run(INIT, acts).threads
    requires Run(INIT, acts).threads[n].key == Run(INIT, acts).threads[m].key
    requires HoldsMutex(Run(INIT, acts).threads[n]) && HoldsMutex(Run(INIT, acts).threads[m])
    ensures n == m
  {
    RunKeepsInv(INIT, acts);
    var s := Run(INIT, acts);
    assert SharesLock(s.table, s.threads[n]) && SharesLock(s.table, s.threads[m]);
  }

  /** Once a key has a saved success, its handler does not run again before that has expired, whoever asks. */
  lemma {:induction false} HandlerRunsOnlyAfterExpiry(acts: seq<Action>, r: nat, i: nat)
    requires r < |Run(INIT, acts).runs| && i < Run(INIT, acts).runs[r].savesBefore
    ensures
      var s := Run(INIT, acts);
      i < |s.saves| && (s.saves[i].key == s.runs[r].key ==> s.runs[r].at > s.saves[i].at + TTL)
  {
    RunKeepsInv(INIT, acts);
    assert RunOk(Run(INIT, acts).saves, Run(INIT, acts).runs[r]);
  }

  /**
   A request answered without the handler gets the status and body last saved for its key, not yet expired, if
   its body hash is the one they were saved under, and a conflict otherwise.
   */
  lemma {:induction false} AnswersAreReplays(acts: seq<Action>, i: nat)
    requires i < |Run(INIT, acts).answers|
    ensures AnswerOk(Run(INIT, acts).saves, Run(INIT, acts).answers[i])
  {
    RunKeepsInv(INIT, acts);
  }

  /** While a saved success lives, every request that looks is answered without the handler. */
  lemma {:induction false} LiveResponsesAnswer(acts: seq<Action>, n: nat)
    requires n in Run(INIT, acts).threads && Run(INIT, acts).threads[n].phase.Looking?
    ensures
      var s := Run(INIT, acts);
      var t := s.threads[n];
      var last := Last(s.saves, |s.saves|, t.key);
      var s' := StepLook(s, n, t);
      if last.Some? && s.now <= last.value.at + TTL then s'.runs == s.runs && |s'.answers| == |s.answers| + 1
      else s'.answers == s.answers && |s'.runs| == |s.runs| + 1
  {
    RunKeepsInv(INIT, acts);
    var s := Run(INIT, acts);
    var t := s.threads[n];
    LastIsLast(s.saves, |s.saves|, t.key);
    assert StoreHas(s.store, t.key, Last(s.saves, |s.saves|, t.key), s.now);
  }

  // ---- what the handler answered ----

  // The thread is past its handler, and past saving what that answered.
  predicate LetsGo(t: Thread) {
    t.phase.Unlocking? || t.phase.Leaving? || t.phase.Gone?
  }

  predicate NoneBy(saves: seq<SaveEvent>, n: nat) {
    forall i :: 0 <= i < |saves| ==> saves[i].thread != n
  }

  // Save i is the one save of thread n.
  predicate OnlyBy(saves: seq<SaveEvent>, n: nat, i: nat) {
    i < |saves| && forall j :: 0 <= j < |saves| ==> (saves[j].thread == n <==> j == i)
  }

  predicate SavedBy(saves: seq<SaveEvent>, n: nat, key: Id, saved: Saved) {
    exists i :: 0 <= i < |saves| && OnlyBy(saves, n, i) && saves[i].key == key && saves[i].saved == saved
  }

  // The thread is about to save this, or lets go and has saved it.
  predicate SavesOf(s: Sys, n: nat, key: Id, saved: Saved) {
    && n in s.threads && s.threads[n].key == key && s.threads[n].hash == saved.requestHash
    && (s.threads[n].phase == Saving(saved.response) || LetsGo(s.threads[n]))
    && (s.threads[n].phase.Saving? ==> NoneBy(s.saves, n))
    && (LetsGo(s.threads[n]) ==> SavedBy(s.saves, n, key, saved))
  }

  predicate SavesNone(s: Sys, n: nat) {
    n in s.threads && LetsGo(s.threads[n]) && NoneBy(s.saves, n)
  }

  // Who saved anything lets go.
  ghost predicate SaversLetGo(s: Sys) {
    forall i :: 0 <= i < |s.saves| ==> s.saves[i].thread in s.threads && LetsGo(s.threads[s.saves[i].thread])
  }

  lemma {:induction false} RunKeepsSavers(s: Sys, acts: seq<Action>)
    requires SaversLetGo(s)
    ensures SaversLetGo(Run(s, acts))
    decreases |acts|
  {
    if acts != [] {
      RunKeepsSavers(Next(s, acts[0]), acts[1..]);
    }
  }

  lemma {:induction false} NextKeepsSaves(s: Sys, a: Action, n: nat, key: Id, saved: Saved)
    requires SavesOf(s, n, key, saved)
    ensures SavesOf(Next(s, a), n, key, saved)
  {
    var s' := Next(s, a);
    if s.threads[n].phase.Saving? {
      if a.Advance? && a.thread == n {
        assert OnlyBy(s'.saves, n, |s.saves|);
      }
    } else {
      var i :| 0 <= i < |s.saves| && OnlyBy(s.saves, n, i) && s.saves[i].key == key && s.saves[i].saved == saved;
      assert OnlyBy(s'.saves, n, i);
    }
  }

  lemma {:induction false} RunKeepsSaves(s: Sys, acts: seq<Action>, n: nat, key: Id, saved: Saved)
    requires SavesOf(s, n, key, saved)
    ensures SavesOf(Run(s, acts), n, key, saved)
    decreases |acts|
  {
    if acts != [] {
      NextKeepsSaves(s, acts[0], n, key, saved);
      RunKeepsSaves(Next(s, acts[0]), acts[1..], n, key, saved);
    }
  }

  lemma {:induction false} RunKeepsNone(s: Sys, acts: seq<Action>, n: nat)
    requires SavesNone(s, n)
    ensures SavesNone(Run(s, acts), n)
    decreases |acts|
  {
    if acts != [] {
      RunKeepsNone(Next(s, acts[0]), acts[1..], n);
    }
  }

  /**
   Whatever runs before and after: a thread whose handler answers with a status from 200 to 299 saves just that
   response, once, before it gives the lock back.  One whose handler answers otherwise, or panics, saves nothing.
   */
  lemma {:induction false} HandledIsSavedIff(acts: seq<Action>, n: nat, outcome: Outcome, more: seq<Action>)
    requires n in Run(INIT, acts).threads && Run(INIT, acts).threads[n].phase.Handling?
    ensures
      var t := Run(INIT, acts).threads[n];
      var s := Run(Next(Run(INIT, acts), Advance(n, outcome)), more);
      if outcome.Answered? && 200 <= outcome.response.status < 300 then
        SavesOf(s, n, t.key, Saved(outcome.response, t.hash))
      else SavesNone(s, n)
  {
    RunKeepsSavers(INIT, acts);
    var before := Run(INIT, acts);
    var t := before.threads[n];
    var s := Next(before, Advance(n, outcome));
    if outcome.Answered? && 200 <= outcome.response.status < 300 {
      RunKeepsSaves(s, more, n, t.key, Saved(outcome.response, t.hash));
    } else {
      RunKeepsNone(s, more, n);
    }
  }

  /** No response with another status is ever saved. */
  lemma {:induction false} OnlySuccessesAreSaved(acts: seq<Action>, i: nat)
    requires i < |Run(INIT, acts).saves|
    ensures 200 <= Run(INIT, acts).saves[i].saved.response.status < 300
  {
    RunKeepsInv(INIT, acts);
  }
}
