/**
 The sync of a connector's listing with one knowledge base.  Fingerprints are an injective function of the
 embedding identity and the source's hash.  Synced says what a sync that nothing interrupts leaves behind.
 */
module KbSync {
  import opened Prelude
  import opened KbStatements
  import opened KbService

  // A listed source: its document id (derived from knowledge base and source), its hash, and its content.
  datatype Meta = Meta(doc: Id, hash: Id, content: string)

  type Fingerprint = (Id, Id) -> Id

  // What a sync is called with: `owned` are the documents whose sources the connector owns, and `complete`
  // says that its listing is all there is.
  datatype Sync = Sync(kb: Id, identity: Id, chunking: Id, metas: seq<Meta>, complete: bool, owned: set<Id>,
      fingerprint: Fingerprint)

  function Listed(metas: seq<Meta>): set<Id> {
    set m | m in metas :: m.doc
  }

  // The embedder or the chunking has changed since the last sync.
  predicate Changed(db: Db, y: Sync)
    requires y.kb in db.kbs
  {
    db.kbs[y.kb].model != y.identity || db.kbs[y.kb].chunking != y.chunking
  }

  function Configured(db: Db, y: Sync): Db {
    SetChunking(db, y.kb, y.chunking)
  }

  function Reindexed(db: Db, y: Sync): Db
    requires y.kb in db.kbs
  {
    if Changed(db, y) then MarkPending(SetIndexing(Configured(db, y), y.kb, y.identity), y.kb, y.identity) else db
  }

  function Gone(db: Db, y: Sync): set<Id> {
    if !y.complete then {} else set d | d in db.docs && db.docs[d].kb == y.kb && d in y.owned && d !in Listed(y.metas)
  }

  function Pruned(db: Db, gone: set<Id>): Db {
    db.(docs := db.docs - gone, chunks := db.chunks - gone)
  }

  // The document is indexed already, at just this version.
  predicate Skips(db: Db, y: Sync, m: Meta) {
    m.doc in db.docs && db.docs[m.doc].hash == y.fingerprint(y.identity, m.hash)
    && db.docs[m.doc].identity == y.identity && db.docs[m.doc].status == Processed
  }

  function SyncOne(db: Db, y: Sync, m: Meta): Db {
    if Skips(db, y, m) then db else Upsert(db, m.doc, y.kb, y.fingerprint(y.identity, m.hash), y.identity)
  }

  function SyncFirst(db: Db, y: Sync, n: nat): Db
    requires n <= |y.metas|
  {
    if n == 0 then db else SyncOne(SyncFirst(db, y, n - 1), y, y.metas[n - 1])
  }

  function Prepared(db: Db, y: Sync): Db
    requires y.kb in db.kbs
  {
    Pruned(Reindexed(db, y), Gone(db, y))
  }

  function Synced(db: Db, y: Sync): Db
    requires y.kb in db.kbs
  {
    ActivateIfReady(SyncFirst(Prepared(db, y), y, |y.metas|), y.kb, y.identity).0
  }

  function TaskFor(y: Sync, m: Meta): Task {
    Task(y.kb, m.doc, y.fingerprint(y.identity, m.hash), y.identity, m.content)
  }

  // The tasks queued for the first n sources; the queue takes no task it already holds.
  function TasksFor(db: Db, y: Sync, n: nat, duplicate: Task -> bool): seq<Task>
    requires n <= |y.metas|
  {
    if n == 0 then []
    else
      var m := y.metas[n - 1];
      TasksFor(db, y, n - 1, duplicate)
      + (if Skips(SyncFirst(db, y, n - 1), y, m) || duplicate(TaskFor(y, m)) then [] else [TaskFor(y, m)])
  }

  // ---- which sources are queued ----

  // Document ids are derived from the knowledge base, and each source is listed once.
  predicate WellListed(db: Db, y: Sync) {
    && (forall i, j :: 0 <= i < j < |y.metas| ==> y.metas[i].doc != y.metas[j].doc)
    && (forall i :: 0 <= i < |y.metas| && y.metas[i].doc in db.docs ==> db.docs[y.metas[i].doc].kb == y.kb)
  }

  // Before the sync: the settings are the same, and the document is indexed at just this version.
  predicate UpToDate(db: Db, y: Sync, m: Meta)
    requires y.kb in db.kbs
  {
    && db.kbs[y.kb].model == y.identity && db.kbs[y.kb].chunking == y.chunking
    && m.doc in db.docs && db.docs[m.doc] == Doc(y.kb, y.fingerprint(y.identity, m.hash), y.identity, Processed)
  }

  // The source is to be indexed, and the queue does not hold its task.
  predicate Due(db: Db, y: Sync, duplicate: Task -> bool, m: Meta)
    requires y.kb in db.kbs
  {
    !UpToDate(db, y, m) && !duplicate(Task(y.kb, m.doc, y.fingerprint(y.identity, m.hash), y.identity, m.content))
  }

  // One task for each of the first n sources that is due, in the order of the listing: the k-th is for source picks[k].
  ghost predicate QueuesDue(db: Db, y: Sync, n: nat, duplicate: Task -> bool, tasks: seq<Task>, picks: seq<nat>)
    requires y.kb in db.kbs && n <= |y.metas|
  {
    && |picks| == |tasks| && (forall k, l :: 0 <= k < l < |picks| ==> picks[k] < picks[l])
    && (forall i: nat :: i in picks <==> i < n && Due(db, y, duplicate, y.metas[i]))
    && forall k :: 0 <= k < |picks| && picks[k] < n ==>
         var m := y.metas[picks[k]];
         tasks[k] == Task(y.kb, m.doc, y.fingerprint(y.identity, m.hash), y.identity, m.content)
  }

  lemma {:induction false} SyncFirstAt(db: Db, y: Sync, n: nat, i: nat)
    requires WellListed(db, y) && y.kb in db.kbs && i < |y.metas| && n <= |y.metas|
    ensures
      var m := y.metas[i];
      var db' := SyncFirst(db, y, n);
      && (n <= i ==> (m.doc in db'.docs <==> m.doc in db.docs))
      && (n <= i && m.doc in db.docs ==> db'.docs[m.doc] == db.docs[m.doc])
      && (i < n ==>
            m.doc in db'.docs
            && db'.docs[m.doc] == Doc(y.kb, y.fingerprint(y.identity, m.hash), y.identity,
                                      if Skips(db, y, m) then Processed else Pending))
    ensures SyncFirst(db, y, n).kbs == db.kbs && SyncFirst(db, y, n).chunks == db.chunks
  {
    if n > 0 {
      SyncFirstAt(db, y, n - 1, i);
    }
  }

  /** A source is skipped exactly if it was up to date before the sync. */
  lemma {:induction false} SkippedIff(db: Db, y: Sync, i: nat)
    requires y.kb in db.kbs && WellListed(db, y) && i < |y.metas|
    ensures Skips(Reindexed(db, y), y, y.metas[i]) <==> UpToDate(db, y, y.metas[i])
    ensures Skips(SyncFirst(Prepared(db, y), y, i), y, y.metas[i]) <==> UpToDate(db, y, y.metas[i])
  {
    var m := y.metas[i];
    assert m in y.metas;
    assert m.doc in Listed(y.metas) && m.doc !in Gone(db, y);
    SyncFirstAt(Prepared(db, y), y, i, i);
  }

  lemma {:induction false} NotDueNext(db: Db, y: Sync, n: nat, duplicate: Task -> bool, tasks: seq<Task>,
      picks: seq<nat>)
    requires y.kb in db.kbs && n < |y.metas| && QueuesDue(db, y, n, duplicate, tasks, picks)
    requires !Due(db, y, duplicate, y.metas[n])
    ensures QueuesDue(db, y, n + 1, duplicate, tasks, picks)
  {
    forall i: nat
      ensures i in picks <==> i < n + 1 && Due(db, y, duplicate, y.metas[i])
    {
      assert i in picks <==> i < n && Due(db, y, duplicate, y.metas[i]);
    }
  }

  lemma {:induction false} DueNext(db: Db, y: Sync, n: nat, duplicate: Task -> bool, tasks: seq<Task>, picks: seq<nat>)
    requires y.kb in db.kbs && n < |y.metas| && QueuesDue(db, y, n, duplicate, tasks, picks)
    requires Due(db, y, duplicate, y.metas[n])
    ensures QueuesDue(db, y, n + 1, duplicate, tasks + [TaskFor(y, y.metas[n])], picks + [n])
  {
    forall i: nat
      ensures i in picks + [n] <==> i < n + 1 && Due(db, y, duplicate, y.metas[i])
    {
      assert i in picks <==> i < n && Due(db, y, duplicate, y.metas[i]);
    }
    forall k | 0 <= k < |picks|
      ensures picks[k] < n
    {
      assert picks[k] in picks;
    }
  }

  lemma {:induction false} TasksNext(db: Db, y: Sync, n: nat, duplicate: Task -> bool)
    requires y.kb in db.kbs && WellListed(db, y) && n < |y.metas|
    ensures TasksFor(Prepared(db, y), y, n + 1, duplicate)
         == if Due(db, y, duplicate, y.metas[n])
            then TasksFor(Prepared(db, y), y, n, duplicate) + [TaskFor(y, y.metas[n])]
            else TasksFor(Prepared(db, y), y, n, duplicate)
  {
    SkippedIff(db, y, n);
  }

  /** The tasks of the first n sources: exactly those of the sources that are due. */
  lemma {:induction false} TasksAreDue(db: Db, y: Sync, n: nat, duplicate: Task -> bool) returns (picks: seq<nat>)
    requires y.kb in db.kbs && WellListed(db, y) && n <= |y.metas|
    ensures QueuesDue(db, y, n, duplicate, TasksFor(Prepared(db, y), y, n, duplicate), picks)
  {
    picks := [];
    if n > 0 {
      picks := TasksAreDue(db, y, n - 1, duplicate);
      var tasks := TasksFor(Prepared(db, y), y, n - 1, duplicate);
      TasksNext(db, y, n - 1, duplicate);
      if Due(db, y, duplicate, y.metas[n - 1]) {
        DueNext(db, y, n - 1, duplicate, tasks, picks);
        picks := picks + [n - 1];
      } else {
        NotDueNext(db, y, n - 1, duplicate, tasks, picks);
      }
    }
  }

  // ---- a sync that an error stops ----

  // Where it stopped: before any statement; before either statement of the reindexing; with some documents
  // pruned, and one of the others perhaps without its chunks; or with the first n sources taken care of.
  datatype Halt =
    | AtStart
    | AtIndexing
    | AtMarking
    | AtPrune(done: set<Id>)
    | AtDelete(done: set<Id>, doc: Id)
    | AtSource(n: nat)

  predicate CanHalt(db: Db, y: Sync, h: Halt)
    requires y.kb in db.kbs
  {
    match h
    case AtStart => true
    case AtIndexing => Changed(db, y)
    case AtMarking => Changed(db, y)
    case AtPrune(done) => done <= Gone(db, y)
    case AtDelete(done, doc) => done <= Gone(db, y) && doc in Gone(db, y) && doc !in done
    case AtSource(n) => n <= |y.metas|
  }

  function Halted(db: Db, y: Sync, h: Halt): Db
    requires y.kb in db.kbs && CanHalt(db, y, h)
  {
    match h
    case AtStart => db
    case AtIndexing => Configured(db, y)
    case AtMarking => SetIndexing(Configured(db, y), y.kb, y.identity)
    case AtPrune(done) => Pruned(Reindexed(db, y), done)
    case AtDelete(done, doc) => RemoveChunks(Pruned(Reindexed(db, y), done), y.kb, doc)
    case AtSource(n) => SyncFirst(Prepared(db, y), y, n)
  }

  // ---- the program ----

  lemma {:induction false} PruneOne(db: Db, gone: set<Id>, kb: Id, doc: Id)
    ensures KbStatements.DeleteDocument(RemoveChunks(Pruned(db, gone), kb, doc), doc) == Pruned(db, gone + {doc})
  {
    var after := KbStatements.DeleteDocument(RemoveChunks(Pruned(db, gone), kb, doc), doc);
    assert after.docs == db.docs - (gone + {doc});
    assert after.chunks == db.chunks - (gone + {doc});
  }

  // The chunking configuration, then the two statements of the reindexing: as many of them as calls succeed.
  method StartReindex(tables: KbTables, y: Sync, calls: nat) returns (ok: bool, left: nat, ghost halt: Halt)
    requires y.kb in tables.kbs
    modifies tables
    ensures ok ==> tables.State() == Reindexed(old(tables.State()), y) && left + 3 >= calls
    ensures halt.AtStart? || halt.AtIndexing? || halt.AtMarking?
    ensures !ok ==> calls < 3 && CanHalt(old(tables.State()), y, halt)
    ensures !ok ==> tables.State() == Halted(old(tables.State()), y, halt)
  {
    ok, left, halt := true, calls, AtStart;
    var chunkingChanged := tables.kbs[y.kb].chunking != y.chunking;
    if tables.kbs[y.kb].model == y.identity && !chunkingChanged {
      return;
    }
    assert !chunkingChanged ==> Configured(tables.State(), y) == tables.State();
    if chunkingChanged {
      if left == 0 {
        return false, left, AtStart;
      }
      left := left - 1;
      tables.UpdateKBChunkingConfig(y.kb, y.chunking);
    }
    ok := tables.BeginKBReindex(y.kb, y.identity, left);
    if !ok {
      halt := if left == 0 then AtIndexing else AtMarking;
    }
    left := if left >= 2 then left - 2 else 0;
  }

  method PruneMissing(tables: KbTables, y: Sync, calls: nat)
    returns (ok: bool, left: nat, deleted: nat, ghost done: set<Id>, ghost half: Option<Id>)
    modifies tables
    ensures done <= Gone(old(tables.State()), y) && deleted == |done|
    ensures half.Some? ==> !ok && half.value in Gone(old(tables.State()), y) && half.value !in done
    ensures ok ==> done == Gone(old(tables.State()), y) && left + 2 * |done| == calls
    ensures !ok ==> calls < 2 * |Gone(old(tables.State()), y)|
    ensures tables.State() == if half.None? then Pruned(old(tables.State()), done)
                              else RemoveChunks(Pruned(old(tables.State()), done), y.kb, half.value)
  {
    ok, left, deleted, done, half := true, calls, 0, {}, None;
    ghost var before := tables.State();
    var todo := Gone(Db(tables.kbs, tables.docs, tables.chunks), y);
    ghost var gone := todo;
    while todo != {}
      invariant done !! todo && done + todo == gone && |done| + |todo| == |gone|
      invariant tables.State() == Pruned(before, done) && deleted == |done| && left + 2 * |done| == calls
      decreases |todo|
    {
      var doc :| doc in todo;
      if left == 0 {
        return false, left, deleted, done, None;
      }
      tables.RemoveDocument(y.kb, doc);
      if left == 1 {
        return false, 0, deleted, done, Some(doc);
      }
      PruneOne(before, done, y.kb, doc);
      tables.DeleteDocument(doc);
      todo, done := todo - {doc}, done + {doc};
      left, deleted := left - 2, deleted + 1;
    }
  }

  // What comes before the sources.
  method Prepare(tables: KbTables, y: Sync, calls: nat) returns (ok: bool, left: nat, deleted: nat, ghost halt: Halt)
    requires y.kb in tables.kbs
    modifies tables
    ensures ok ==> tables.State() == Prepared(old(tables.State()), y) && deleted == |Gone(old(tables.State()), y)|
    ensures ok ==> left + 3 + 2 * |Gone(old(tables.State()), y)| >= calls
    ensures !ok ==> CanHalt(old(tables.State()), y, halt) && tables.State() == Halted(old(tables.State()), y, halt)
    ensures !ok ==> !halt.AtSource? && calls < 3 + 2 * |Gone(old(tables.State()), y)|
  {
    deleted := 0;
    ghost var before := tables.State();
    ok, left, halt := StartReindex(tables, y, calls);
    if !ok {
      return;
    }
    assert Gone(tables.State(), y) == Gone(before, y);
    ghost var done, half;
    ok, left, deleted, done, half := PruneMissing(tables, y, left);
    if !ok {
      halt := if half.None? then AtPrune(done) else AtDelete(done, half.value);
    }
  }

  // One source: fetched, stored and queued, or skipped.  `stored` says whether its document is up to date in
  // the tables, which it is even if queueing its task fails.
  method SyncSource(tables: KbTables, y: Sync, m: Meta, duplicate: Task -> bool, calls: nat)
    returns (ok: bool, left: nat, task: Option<Task>, stored: bool)
    modifies tables
    ensures tables.State() == if stored then SyncOne(old(tables.State()), y, m) else old(tables.State())
    ensures ok ==> stored && left + 3 >= calls
    ensures ok ==>
      task == if Skips(old(tables.State()), y, m) || duplicate(TaskFor(y, m)) then None else Some(TaskFor(y, m))
    ensures !ok ==> calls < 3
  {
    ok, left, task, stored := true, calls, None, true;
    var fingerprint := y.fingerprint(y.identity, m.hash);
    if m.doc in tables.docs && tables.docs[m.doc].hash == fingerprint
       && tables.docs[m.doc].identity == y.identity && tables.docs[m.doc].status == Processed {
      return;
    }
    if calls < 2 {
      return false, 0, None, false;
    }
    tables.UpsertDocument(m.doc, y.kb, fingerprint, y.identity);
    if calls == 2 {
      return false, 0, None, true;
    }
    left := calls - 3;
    var queued := Task(y.kb, m.doc, fingerprint, y.identity, m.content);
    if !duplicate(queued) {
      task := Some(queued);
    }
  }

  // The tasks of the first n sources are queued; the last one may be missing, if its queueing failed.
  predicate QueuedSoFar(db: Db, y: Sync, n: nat, duplicate: Task -> bool, tasks: seq<Task>)
    requires n <= |y.metas|
  {
    tasks == TasksFor(db, y, n, duplicate) || (n > 0 && tasks == TasksFor(db, y, n - 1, duplicate))
  }

  // The listed sources in order, until a call fails.
  method SyncSources(tables: KbTables, y: Sync, duplicate: Task -> bool, calls: nat)
    returns (ok: bool, left: nat, tasks: seq<Task>, skipped: nat, ghost n: nat)
    modifies tables
    ensures n <= |y.metas| && tables.State() == SyncFirst(old(tables.State()), y, n)
    ensures ok ==> n == |y.metas| && tasks == TasksFor(old(tables.State()), y, n, duplicate) && left + 3 * n >= calls
    ensures ok ==> skipped + |tasks| == n
    ensures !ok ==> calls < 3 * |y.metas|
    ensures QueuedSoFar(old(tables.State()), y, n, duplicate, tasks)
  {
    ok, left, tasks, skipped, n := true, calls, [], 0, 0;
    ghost var before := tables.State();
    for i := 0 to |y.metas|
      invariant ok && n == i && tables.State() == SyncFirst(before, y, i)
      invariant tasks == TasksFor(before, y, i, duplicate) && skipped + |tasks| == i
      invariant left + 3 * i >= calls
    {
      var task, stored;
      ok, left, task, stored := SyncSource(tables, y, y.metas[i], duplicate, left);
      if !ok {
        n := if stored then i + 1 else i;
        return;
      }
      if task.Some? {
        tasks := tasks + [task.value];
      } else {
        skipped := skipped + 1;
      }
      n := i + 1;
    }
  }

  /**
   The sync of a listing.  The first `calls` of its calls succeed and the next one reports an error, if it gets
   that far: then the sync stops where it is.
   */
  method SyncConnector(tables: KbTables, y: Sync, duplicate: Task -> bool, calls: nat)
    returns (found: bool, ok: bool, tasks: seq<Task>, skipped: nat, deleted: nat, ghost halt: Halt)
    modifies tables
    ensures found <==> y.kb in old(tables.kbs)
    ensures !found ==> !ok && tables.State() == old(tables.State())
    ensures found && ok ==>
      && tables.State() == Synced(old(tables.State()), y)
      && tasks == TasksFor(Prepared(old(tables.State()), y), y, |y.metas|, duplicate)
      && skipped + |tasks| == |y.metas| && deleted == |Gone(old(tables.State()), y)|
    ensures found && !ok ==>
      CanHalt(old(tables.State()), y, halt) && tables.State() == Halted(old(tables.State()), y, halt)
    ensures found && !ok ==>
      if halt.AtSource? then QueuedSoFar(Prepared(old(tables.State()), y), y, halt.n, duplicate, tasks) else tasks == []
    ensures found && ok && WellListed(old(tables.State()), y) ==>
      exists picks :: QueuesDue(old(tables.State()), y, |y.metas|, duplicate, tasks, picks)
    ensures found && !ok && halt.AtSource? && WellListed(old(tables.State()), y) ==> exists n, picks ::
      halt.n - 1 <= n <= halt.n && 0 <= n <= |y.metas| && QueuesDue(old(tables.State()), y, n, duplicate, tasks, picks)
    ensures found && calls > 3 + 2 * |Gone(old(tables.State()), y)| + 3 * |y.metas| ==> ok
  {
    ghost var before := tables.State();
    ok, tasks, skipped, deleted, halt := false, [], 0, 0, AtStart;
    found := y.kb in tables.kbs;
    if !found {
      return;
    }
    var left;
    ok, left, deleted, halt := Prepare(tables, y, calls);
    if !ok {
      return;
    }
    ghost var n;
    ok, left, tasks, skipped, n := SyncSources(tables, y, duplicate, left);
    halt := AtSource(n);
    if WellListed(before, y) {
      ghost var k := if tasks == TasksFor(Prepared(before, y), y, n, duplicate) then n else n - 1;
      ghost var picks := TasksAreDue(before, y, k, duplicate);
    }
    ok := ok && left > 0;
    if ok {
      var _ := tables.ActivateKBIfReady(y.kb, y.identity);
    }
  }

  // ---- what a sync leaves behind ----

  lemma {:induction false} SyncFirstElsewhere(db: Db, y: Sync, n: nat, doc: Id)
    requires n <= |y.metas| && doc !in Listed(y.metas)
    ensures
      var db' := SyncFirst(db, y, n);
      (doc in db'.docs <==> doc in db.docs) && (doc in db.docs ==> db'.docs[doc] == db.docs[doc])
  {
    if n > 0 {
      assert y.metas[n - 1] in y.metas;
      SyncFirstElsewhere(db, y, n - 1, doc);
    }
  }

  /**
   After a sync every listed source has its document, at the fingerprint and embedding identity of this sync:
   processed if it was processed at just that version before, pending otherwise.
   */
  lemma {:induction false} SyncedIsCurrent(db: Db, y: Sync, i: nat)
    requires y.kb in db.kbs && WellListed(db, y) && i < |y.metas|
    ensures
      var m := y.metas[i];
      var db' := Synced(db, y);
      && m.doc in db'.docs
      && db'.docs[m.doc] == Doc(y.kb, y.fingerprint(y.identity, m.hash), y.identity,
                                if Skips(Reindexed(db, y), y, m) then Processed else Pending)
  {
    var prepared := Prepared(db, y);
    var m := y.metas[i];
    assert m in y.metas;
    assert m.doc in Listed(y.metas) && m.doc !in Gone(db, y);
    SyncFirstAt(prepared, y, |y.metas|, i);
  }

  /**
   A change of embedder or of chunking starts everything over: after the sync every document of the knowledge
   base waits, at the new identity, and nothing is taken to be indexed already.
   */
  lemma {:induction false} ChangedSettingsStartOver(db: Db, y: Sync, doc: Id)
    requires y.kb in db.kbs && WellListed(db, y) && Changed(db, y)
    requires doc in Synced(db, y).docs && Synced(db, y).docs[doc].kb == y.kb
    ensures Synced(db, y).docs[doc].status == Pending && Synced(db, y).docs[doc].identity == y.identity
  {
    var prepared := Prepared(db, y);
    if doc in Listed(y.metas) {
      var i :| 0 <= i < |y.metas| && y.metas[i].doc == doc;
      SyncedIsCurrent(db, y, i);
    } else {
      SyncFirstElsewhere(prepared, y, |y.metas|, doc);
    }
  }

  /** After a sync of a complete listing no document of a vanished source is left, nor any of its chunks. */
  lemma {:induction false} SyncedIsPruned(db: Db, y: Sync, doc: Id)
    requires y.kb in db.kbs && y.complete && doc in y.owned && doc !in Listed(y.metas)
    requires doc in db.docs && db.docs[doc].kb == y.kb
    ensures doc !in Synced(db, y).docs && RowsOf(Synced(db, y), doc) == []
  {
    var prepared := Prepared(db, y);
    SyncFirstElsewhere(prepared, y, |y.metas|, doc);
    SyncFirstKeepsChunks(prepared, y, |y.metas|);
  }

  lemma {:induction false} SyncFirstKeepsChunks(db: Db, y: Sync, n: nat)
    requires n <= |y.metas|
    ensures SyncFirst(db, y, n).chunks == db.chunks && SyncFirst(db, y, n).kbs == db.kbs
  {
    if n > 0 {
      SyncFirstKeepsChunks(db, y, n - 1);
    }
  }

  /** A sync touches no other knowledge base. */
  lemma {:induction false} SyncedLeavesOthers(db: Db, y: Sync, doc: Id)
    requires y.kb in db.kbs && WellListed(db, y) && doc in db.docs && db.docs[doc].kb != y.kb
    ensures doc in Synced(db, y).docs && Synced(db, y).docs[doc] == db.docs[doc]
        && RowsOf(Synced(db, y), doc) == RowsOf(db, doc)
  {
    var prepared := Prepared(db, y);
    assert doc !in Listed(y.metas);
    SyncFirstElsewhere(prepared, y, |y.metas|, doc);
    SyncFirstKeepsChunks(prepared, y, |y.metas|);
  }

  /** Nor does it touch a document of its knowledge base that it is not responsible for. */
  lemma {:induction false} SyncedKeepsUnlisted(db: Db, y: Sync, doc: Id)
    requires y.kb in db.kbs && doc in db.docs && doc !in Listed(y.metas) && (!y.complete || doc !in y.owned)
    requires db.kbs[y.kb].model == y.identity && db.kbs[y.kb].chunking == y.chunking
    ensures doc in Synced(db, y).docs && Synced(db, y).docs[doc] == db.docs[doc]
        && RowsOf(Synced(db, y), doc) == RowsOf(db, doc)
  {
    var prepared := Prepared(db, y);
    SyncFirstElsewhere(prepared, y, |y.metas|, doc);
    SyncFirstKeepsChunks(prepared, y, |y.metas|);
  }

  /**
   After a sync the settings are stored, and a knowledge base is active that was active with these settings, or
   whose documents are all processed at this identity.
   */
  lemma {:induction false} SyncedStoresSettings(db: Db, y: Sync)
    requires y.kb in db.kbs
    ensures
      var db' := Synced(db, y);
      var same := db.kbs[y.kb].model == y.identity && db.kbs[y.kb].chunking == y.chunking;
      var ready := forall d :: d in db'.docs && db'.docs[d].kb == y.kb ==>
          db'.docs[d].status == Processed && db'.docs[d].identity == y.identity;
      && db'.kbs == db.kbs[y.kb := Kb(y.identity, y.chunking,
            if ready || (same && db.kbs[y.kb].status == KbActive) then KbActive else KbIndexing)]
  {
    var prepared := Prepared(db, y);
    SyncFirstKeepsChunks(prepared, y, |y.metas|);
  }

  ghost predicate Injective(fingerprint: Fingerprint) {
    forall i, h, i', h' :: fingerprint(i, h) == fingerprint(i', h') ==> i == i' && h == h'
  }

  /** A source is skipped only if its document was indexed for this very source hash and embedding identity. */
  lemma {:induction false} SkippedIsUnchanged(db: Db, y: Sync, m: Meta, identity: Id, hash: Id)
    requires Injective(y.fingerprint) && Skips(db, y, m) && db.docs[m.doc].hash == y.fingerprint(identity, hash)
    ensures hash == m.hash && identity == y.identity
  {
    assert y.fingerprint(identity, hash) == y.fingerprint(y.identity, m.hash);
  }

  /** What a sync queues is current when it ends: each task is for the version its document then waits at. */
  lemma {:induction false} QueuedIsCurrent(db: Db, y: Sync, n: nat, duplicate: Task -> bool, task: Task)
    requires y.kb in db.kbs && WellListed(db, y) && n <= |y.metas| && task in TasksFor(db, y, n, duplicate)
    ensures Current(SyncFirst(db, y, |y.metas|), task)
  {
    var m := y.metas[n - 1];
    if task in TasksFor(db, y, n - 1, duplicate) {
      QueuedIsCurrent(db, y, n - 1, duplicate, task);
    } else {
      assert task == TaskFor(y, m) && !Skips(SyncFirst(db, y, n - 1), y, m);
      SyncFirstAt(db, y, n - 1, n - 1);
      SyncFirstAt(db, y, |y.metas|, n - 1);
    }
  }
}
