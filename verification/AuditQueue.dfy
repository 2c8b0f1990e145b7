/**
 The audit writer's bounded queue: any number of callers write, one loop gathers entries into batches and
 inserts each batch whole or not at all, and closing drains what is left.  One action is one critical section
 of Write or Close, or one turn of the loop.  The functions on Core specify the steps; AuditWriter holds the
 object whose methods update the queue, the batch and the counter.
 */
module AuditQueue {
  import opened Prelude

  const CAPACITY: nat := 1024
  const BATCH: nat := 64

  // What a flush did with its batch.
  datatype Flush = Flush(batch: seq<Id>, ok: bool)

  // `calls` (finished calls of Write), `accepted` and `flushes` are history.
  datatype Core = Core(queue: seq<Id>, batch: seq<Id>, dropped: nat, closed: bool,
                       flushes: seq<Flush>, accepted: seq<Id>, calls: nat)

  const START := Core([], [], 0, false, [], [], 0)

  function Refuse(c: Core): Core {
    c.(dropped := c.dropped + 1, calls := c.calls + 1)
  }

  // The select of Write: send if there is room, drop otherwise.
  function Offer(c: Core, e: Id): Core {
    if |c.queue| < CAPACITY then c.(queue := c.queue + [e], accepted := c.accepted + [e], calls := c.calls + 1)
    else Refuse(c)
  }

  function Receive(c: Core): Core
    requires c.queue != []
  {
    c.(batch := c.batch + [c.queue[0]], queue := c.queue[1..])
  }

  function FlushBatch(c: Core, ok: bool): Core {
    if c.batch == [] then c
    else
      c.(batch := [], dropped := if ok then c.dropped else c.dropped + |c.batch|,
         flushes := c.flushes + [Flush(c.batch, ok)])
  }

  // ---- what was done with the accepted entries ----

  function Flushed(fs: seq<Flush>): seq<Id> {
    if fs == [] then [] else Flushed(fs[..|fs| - 1]) + fs[|fs| - 1].batch
  }

  function Persisted(fs: seq<Flush>): seq<Id> {
    if fs == [] then [] else Persisted(fs[..|fs| - 1]) + (if fs[|fs| - 1].ok then fs[|fs| - 1].batch else [])
  }

  // Every call is accounted for, and the accepted entries are, in order, the flushed, the batched and the queued ones.
  predicate Conserves(c: Core) {
    && c.calls == |Persisted(c.flushes)| + c.dropped + |c.queue| + |c.batch|
    && c.accepted == Flushed(c.flushes) + c.batch + c.queue
    && |c.queue| <= CAPACITY
  }

  lemma {:induction false} OfferConserves(c: Core, e: Id)
    requires Conserves(c)
    ensures Conserves(Offer(c, e)) && Conserves(Refuse(c))
  {
  }

  lemma {:induction false} ReceiveConserves(c: Core)
    requires Conserves(c) && c.queue != []
    ensures Conserves(Receive(c))
  {
    assert c.queue == [c.queue[0]] + c.queue[1..];
  }

  lemma {:induction false} FlushConserves(c: Core, ok: bool)
    requires Conserves(c)
    ensures Conserves(FlushBatch(c, ok))
  {
    if c.batch != [] {
      var fs := FlushBatch(c, ok).flushes;
      assert fs[..|fs| - 1] == c.flushes;
    }
  }

  // ---- the machine ----

  datatype Loop = Looping | Flushing(last: bool) | Draining | Stopped

  // `inside` are the calls of Write that hold the read lock and have seen the writer open.
  datatype Sys = Sys(core: Core, loop: Loop, inside: map<nat, Id>)

  const INIT := Sys(START, Looping, map[])

  datatype Turn = OnEntry | OnTick | OnQuit

  datatype Action =
    | BeginWrite(caller: nat, entry: Option<Id>)
    | EndWrite(caller: nat)
    | Close
    | LoopTurn(turn: Turn, ok: bool)

  // Close takes the write lock: no call of Write is inside then.
  function StepClose(s: Sys): Sys {
    if s.core.closed || s.inside != map[] then s else s.(core := s.core.(closed := true))
  }

  function StepLoop(s: Sys, turn: Turn, ok: bool): Sys {
    match s.loop
    case Looping =>
      (match turn
       case OnEntry =>
         if s.core.queue == [] then s
         else
           var c := Receive(s.core);
           Sys(c, if |c.batch| >= BATCH then Flushing(false) else Looping, s.inside)
       case OnTick => s.(loop := Flushing(false))
       case OnQuit => if s.core.closed then s.(loop := Draining) else s)
    case Draining => if s.core.queue != [] then s.(core := Receive(s.core)) else s.(loop := Flushing(true))
    case Flushing(last) => Sys(FlushBatch(s.core, ok), if last then Stopped else Looping, s.inside)
    case Stopped => s
  }

  function Next(s: Sys, a: Action): Sys {
    match a
    case BeginWrite(n, entry) =>
      if n in s.inside then s
      else if entry.None? || s.core.closed then s.(core := Refuse(s.core))
      else s.(inside := s.inside[n := entry.value])
    case EndWrite(n) => if n !in s.inside then s else s.(core := Offer(s.core, s.inside[n]), inside := s.inside - {n})
    case Close => StepClose(s)
    case LoopTurn(turn, ok) => StepLoop(s, turn, ok)
  }

  function Run(s: Sys, acts: seq<Action>): Sys
    decreases |acts|
  {
    if acts == [] then s else Run(Next(s, acts[0]), acts[1..])
  }

  // Close has returned: the flag is set and the loop has stopped.
  predicate Closed(s: Sys) {
    s.core.closed && s.loop.Stopped?
  }

  predicate Inv(s: Sys) {
    && Conserves(s.core)
    && (s.core.closed ==> s.inside == map[])
    && (s.loop.Draining? || s.loop.Stopped? || s.loop == Flushing(true) ==> s.core.closed)
    && (s.loop.Stopped? || s.loop == Flushing(true) ==> s.core.queue == [])
    && (s.loop.Stopped? ==> s.core.batch == [])
    && (s.loop.Looping? ==> |s.core.batch| < BATCH)
    && (!s.core.closed ==> |s.core.batch| <= BATCH)
    && |s.core.batch| + |s.core.queue| <= BATCH + CAPACITY
  }

  lemma {:induction false} LoopKeepsInv(s: Sys, turn: Turn, ok: bool)
    requires Inv(s)
    ensures Inv(StepLoop(s, turn, ok))
  {
    if s.loop.Flushing? {
      FlushConserves(s.core, ok);
    } else if s.core.queue != [] {
      ReceiveConserves(s.core);
    }
  }

  lemma {:induction false} NextKeepsInv(s: Sys, a: Action)
    requires Inv(s)
    ensures Inv(Next(s, a))
  {
    match a
    case LoopTurn(turn, ok) => LoopKeepsInv(s, turn, ok);
    case EndWrite(n) => if n in s.inside { OfferConserves(s.core, s.inside[n]); }
    case BeginWrite(_, _) => OfferConserves(s.core, 0);
    case Close =>
  }

  lemma {:induction false} RunKeepsInv(s: Sys, acts: seq<Action>)
    requires Inv(s)
    ensures Inv(Run(s, acts))
    decreases |acts|
  {
    if acts != [] {
      NextKeepsInv(s, acts[0]);
      RunKeepsInv(Next(s, acts[0]), acts[1..]);
    }
  }

  /** Nothing is lost uncounted: the calls of Write are the entries persisted, dropped, queued and batched. */
  lemma {:induction false} WritesAreConserved(acts: seq<Action>)
    ensures
      var c := Run(INIT, acts).core;
      c.calls == |Persisted(c.flushes)| + c.dropped + |c.queue| + |c.batch|
  {
    RunKeepsInv(INIT, acts);
  }

  /** In every run a tick flushes what is batched, and so does the entry that makes 64. */
  lemma {:induction false} BatchIsFlushed(acts: seq<Action>, turn: Turn, ok: bool, ok': bool)
    requires Run(INIT, acts).loop.Looping? && Run(INIT, acts).core.batch != []
    requires turn.OnTick? || (turn.OnEntry? && Run(INIT, acts).core.queue != [] && |Run(INIT, acts).core.batch| == 63)
    ensures
      var s := Run(INIT, acts);
      var s' := StepLoop(StepLoop(s, turn, ok'), OnTick, ok);
      var batch := if turn.OnTick? then s.core.batch else s.core.batch + [s.core.queue[0]];
      s'.loop.Looping? && s'.core.batch == [] && s'.core.flushes == s.core.flushes + [Flush(batch, ok)]
  {
  }

  // `p` is what remains of `a` after taking out whole runs of entries.
  predicate Subsequence(p: seq<Id>, a: seq<Id>) {
    p == [] || (a != [] && ((p[|p| - 1] == a[|a| - 1] && Subsequence(p[..|p| - 1], a[..|a| - 1]))
      || Subsequence(p, a[..|a| - 1])))
  }

  lemma {:induction false} SubsequenceSkip(p: seq<Id>, a: seq<Id>, more: seq<Id>)
    requires Subsequence(p, a)
    ensures Subsequence(p, a + more)
  {
    if more == [] {
      assert a + more == a;
    } else {
      assert (a + more)[..|a + more| - 1] == a + more[..|more| - 1];
      SubsequenceSkip(p, a, more[..|more| - 1]);
    }
  }

  lemma {:induction false} SubsequenceBoth(p: seq<Id>, a: seq<Id>, more: seq<Id>)
    requires Subsequence(p, a)
    ensures Subsequence(p + more, a + more)
  {
    if more == [] {
      assert a + more == a && p + more == p;
    } else {
      assert (a + more)[..|a + more| - 1] == a + more[..|more| - 1];
      assert (p + more)[..|p + more| - 1] == p + more[..|more| - 1];
      SubsequenceBoth(p, a, more[..|more| - 1]);
    }
  }

  lemma {:induction false} PersistedInOrder(fs: seq<Flush>)
    ensures Subsequence(Persisted(fs), Flushed(fs))
  {
    if fs != [] {
      var front, last := fs[..|fs| - 1], fs[|fs| - 1];
      PersistedInOrder(front);
      if last.ok {
        SubsequenceBoth(Persisted(front), Flushed(front), last.batch);
      } else {
        SubsequenceSkip(Persisted(front), Flushed(front), last.batch);
        assert Persisted(fs) == Persisted(front);
      }
    }
  }

  /** What is persisted keeps the order in which it was accepted; only whole batches are missing from it. */
  lemma {:induction false} PersistedKeepsOrder(acts: seq<Action>)
    ensures
      var c := Run(INIT, acts).core;
      Subsequence(Persisted(c.flushes), c.accepted) && c.accepted == Flushed(c.flushes) + c.batch + c.queue
  {
    RunKeepsInv(INIT, acts);
    var c := Run(INIT, acts).core;
    PersistedInOrder(c.flushes);
    SubsequenceSkip(Persisted(c.flushes), Flushed(c.flushes), c.batch);
    SubsequenceSkip(Persisted(c.flushes), Flushed(c.flushes) + c.batch, c.queue);
  }

  lemma {:induction false} NothingAfterClose(s: Sys, acts: seq<Action>)
    requires Inv(s) && Closed(s)
    ensures
      var s' := Run(s, acts);
      Closed(s') && s'.core.accepted == s.core.accepted && s'.core.flushes == s.core.flushes
    decreases |acts|
  {
    if acts != [] {
      NextKeepsInv(s, acts[0]);
      NothingAfterClose(Next(s, acts[0]), acts[1..]);
    }
  }

  /**
   Once Close has returned, queue and batch are empty, every accepted entry was flushed, and nothing is accepted
   or flushed in any run after it: each later call of Write is counted as dropped.
   */
  lemma {:induction false} CloseDrains(acts: seq<Action>, later: seq<Action>)
    requires Closed(Run(INIT, acts))
    ensures
      var s, s' := Run(INIT, acts), Run(Run(INIT, acts), later);
      && s.core.queue == [] && s.core.batch == [] && s.core.accepted == Flushed(s.core.flushes)
      && s'.core.queue == [] && s'.core.batch == []
      && s'.core.accepted == s.core.accepted && s'.core.flushes == s.core.flushes
      && s'.core.calls - s.core.calls == s'.core.dropped - s.core.dropped
  {
    RunKeepsInv(INIT, acts);
    RunKeepsInv(Run(INIT, acts), later);
    NothingAfterClose(Run(INIT, acts), later);
  }
}

/** The audit writer's object. */
module AuditWriter {
  import opened Prelude
  import opened AuditQueue

  class Writer {
    var queue: seq<Id>
    var batch: seq<Id>
    var dropped: nat
    var closed: bool
    ghost var flushes: seq<Flush>
    ghost var accepted: seq<Id>
    ghost var calls: nat

    ghost function State(): Core
      reads this
    {
      Core(queue, batch, dropped, closed, flushes, accepted, calls)
    }

    constructor ()
      ensures State() == START
    {
      queue, batch, dropped, closed := [], [], 0, false;
      flushes, accepted, calls := [], [], 0;
    }

    method Write(e: Option<Id>)
      modifies this
      ensures State() == if e.None? || old(closed) then Refuse(old(State())) else Offer(old(State()), e.value)
      ensures if e.Some? && !old(closed) && |old(queue)| < 1024
              then queue == old(queue) + [e.value] && accepted == old(accepted) + [e.value] && dropped == old(dropped)
              else queue == old(queue) && accepted == old(accepted) && dropped == old(dropped) + 1
    {
      calls := calls + 1;
      if e.None? {
        dropped := dropped + 1;
        return;
      }
      if closed {
        dropped := dropped + 1;
        return;
      }
      if |queue| < CAPACITY {
        queue := queue + [e.value];
        accepted := accepted + [e.value];
      } else {
        dropped := dropped + 1;
      }
    }

    // The closure of the loop; `ok` says whether the insert succeeds.
    method FlushNow(ok: bool)
      modifies this
      ensures State() == FlushBatch(old(State()), ok)
    {
      if |batch| == 0 {
        return;
      }
      if !ok {
        dropped := dropped + |batch|;
      }
      flushes := flushes + [Flush(batch, ok)];
      batch := [];
    }

    // One entry of the main loop.
    method TakeEntry(ok: bool)
      requires queue != []
      modifies this
      ensures
        var c := Receive(old(State()));
        State() == if |c.batch| >= BATCH then FlushBatch(c, ok) else c
      ensures var full := old(batch) + [old(queue)[0]];
        if |full| < 64 then batch == full && flushes == old(flushes)
        else batch == [] && flushes == old(flushes) + [Flush(full, ok)]
    {
      var e := queue[0];
      queue := queue[1..];
      batch := batch + [e];
      if |batch| >= BATCH {
        FlushNow(ok);
      }
    }

    // The end of the loop: empty the queue, flush once more.
    method Drain(ok: bool)
      requires Conserves(State())
      modifies this
      ensures queue == [] && batch == [] && Conserves(State())
      ensures calls == old(calls) && accepted == old(accepted) && closed == old(closed)
      ensures flushes == if old(batch + queue) == [] then old(flushes)
        else old(flushes) + [Flush(old(batch + queue), ok)]
    {
      while |queue| > 0
        invariant batch + queue == old(batch + queue) && Conserves(State())
        invariant calls == old(calls) && accepted == old(accepted) && closed == old(closed) && flushes == old(flushes)
        decreases |queue|
      {
        ReceiveConserves(State());
        var e := queue[0];
        queue := queue[1..];
        batch := batch + [e];
      }
      assert batch == old(batch + queue);
      FlushConserves(State(), ok);
      FlushNow(ok);
    }
  }
}
