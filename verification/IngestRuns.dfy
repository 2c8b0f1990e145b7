/**
 Versioned ingest: syncs, reindexings and deletions run statements on the tables while any number of workers
 take tasks from a queue that may deliver each of them late, twice, or after it went stale.  A run interleaves
 single statements; a worker may crash between any two of its own.
 */
module IngestRuns {
  import opened Prelude
  import opened KbStatements
  import Chunker

  // ---- workers ----

  datatype Phase = Checking | Working | Indexing(texts: seq<string>) | Failing | Activating | Finished

  // `identity` is the embedder of the worker's own process.
  datatype Worker = Worker(w: Writer, identity: Id, phase: Phase)

  datatype Sys = Sys(db: Db, queued: set<Task>, workers: map<nat, Worker>)

  const INIT := Sys(EMPTY, {}, map[])

  // An outside call succeeds, fails, or takes effect and reports an error all the same.
  datatype Outcome = Fine | Broken | Torn

  datatype Action =
    | NewKb(kb: Id, model: Id, chunking: Id)
    | DoUpsert(doc: Id, kb: Id, hash: Id, identity: Id)
    | DoSetChunking(kb: Id, chunking: Id)
    | DoSetIndexing(kb: Id, identity: Id)
    | DoMarkPending(kb: Id, identity: Id)
    | DoRemoveChunks(kb: Id, doc: Id)
    | DoDelete(doc: Id)
    | DoActivate(kb: Id, identity: Id)
    | Enqueue(task: Task)
    | Deliver(worker: nat, task: Task, identity: Id, size: int, overlap: int)
    | Advance(worker: nat, outcome: Outcome)
    | Crash(worker: nat)

  // One statement of IngestDocumentVersion, or the work between two of them.  An error of a read or an activation
  // is returned to the queue; one of an embedding or a transaction marks the document.
  function StepWorker(db: Db, k: Worker, outcome: Outcome): (Db, Worker) {
    var task := k.w.task;
    match k.phase
    case Checking =>
      if !outcome.Fine? || task.identity != k.identity || !Current(db, task) then (db, k.(phase := Finished))
      else (db, k.(phase := Working))
    case Working =>
      var texts := Chunker.ChunksOf(task.content, k.w.size, k.w.overlap);
      if texts == [] || !outcome.Fine? then (db, k.(phase := Failing)) else (db, k.(phase := Indexing(texts)))
    case Indexing(texts) =>
      if outcome.Broken? then (db, k.(phase := Failing))
      else
        var (db', indexed) := IndexIfCurrent(db, k.w, texts);
        (db', k.(phase := if outcome.Torn? then Failing else if indexed then Activating else Finished))
    case Failing =>
      (if outcome.Broken? then db else MarkIfCurrent(db, task.doc, task.hash, task.identity, Failed).0,
       k.(phase := Finished))
    case Activating =>
      (if outcome.Broken? then db else ActivateIfReady(db, task.kb, task.identity).0, k.(phase := Finished))
    case Finished => (db, k)
  }

  function StepDb(db: Db, a: Action): Db {
    match a
    case NewKb(kb, model, chunking) => CreateKb(db, kb, model, chunking)
    case DoUpsert(doc, kb, hash, identity) => Upsert(db, doc, kb, hash, identity)
    case DoSetChunking(kb, chunking) => SetChunking(db, kb, chunking)
    case DoSetIndexing(kb, identity) => SetIndexing(db, kb, identity)
    case DoMarkPending(kb, identity) => MarkPending(db, kb, identity)
    case DoRemoveChunks(kb, doc) => RemoveChunks(db, kb, doc)
    case DoDelete(doc) => DeleteDocument(db, doc)
    case DoActivate(kb, identity) => ActivateIfReady(db, kb, identity).0
    case _ => db
  }

  function Next(s: Sys, a: Action): Sys {
    match a
    case Enqueue(task) => s.(queued := s.queued + {task})
    case Deliver(n, task, identity, size, overlap) =>
      if n in s.workers || task !in s.queued then s
      else s.(workers := s.workers[n := Worker(Writer(task, size, overlap), identity, Checking)])
    case Advance(n, outcome) =>
      if n !in s.workers then s
      else
        var (db, k) := StepWorker(s.db, s.workers[n], outcome);
        s.(db := db, workers := s.workers[n := k])
    case Crash(n) => if n !in s.workers then s else s.(workers := s.workers[n := s.workers[n].(phase := Finished)])
    case _ => s.(db := StepDb(s.db, a))
  }

  function Run(s: Sys, acts: seq<Action>): Sys
    decreases |acts|
  {
    if acts == [] then s else Run(Next(s, acts[0]), acts[1..])
  }

  // ---- the invariant ----

  // The rows are one whole batch: every chunk of one queued task's content, cut as its worker was configured.
  predicate Whole(rows: seq<Row>, w: Writer) {
    rows == NewRows(w, Chunker.ChunksOf(w.task.content, w.size, w.overlap))
  }

  // What lies under a document: nothing, or one batch for it; under a processed one, at its current version.
  predicate DocOk(queued: set<Task>, doc: Id, d: Doc, rows: seq<Row>) {
    rows != [] ==>
      var w := rows[0].writer;
      && Whole(rows, w) && w.task in queued && w.task.doc == doc && w.task.kb == d.kb
      && (d.status == Processed ==> w.task.hash == d.hash && w.task.identity == d.identity)
  }

  ghost predicate DbOk(queued: set<Task>, db: Db) {
    && (forall d :: d !in db.docs ==> RowsOf(db, d) == [])
    && (forall d :: d in db.docs ==> DocOk(queued, d, db.docs[d], RowsOf(db, d)))
  }

  predicate WorkerOk(queued: set<Task>, k: Worker) {
    && k.w.task in queued
    && (k.phase.Indexing? ==>
      k.phase.texts == Chunker.ChunksOf(k.w.task.content, k.w.size, k.w.overlap) && k.phase.texts != [])
    && (!k.phase.Checking? && !k.phase.Finished? ==> k.w.task.identity == k.identity)
  }

  ghost predicate Inv(s: Sys) {
    DbOk(s.queued, s.db) && forall n :: n in s.workers ==> WorkerOk(s.queued, s.workers[n])
  }

  // ---- each statement keeps it ----

  lemma {:induction false} NoneNotIn(rows: seq<Row>, kb: Id)
    requires forall r :: r in rows ==> r.kb == kb
    ensures NotIn(rows, kb) == []
  {
    if rows != [] {
      assert rows[0] in rows && forall r :: r in rows[1..] ==> r in rows;
      NoneNotIn(rows[1..], kb);
    }
  }

  lemma {:induction false} AllNotIn(rows: seq<Row>, kb: Id)
    requires forall r :: r in rows ==> r.kb != kb
    ensures NotIn(rows, kb) == rows
  {
    if rows != [] {
      assert rows[0] in rows && forall r :: r in rows[1..] ==> r in rows;
      AllNotIn(rows[1..], kb);
    }
  }

  lemma {:induction false} RemovingKeepsDocOk(queued: set<Task>, doc: Id, d: Doc, rows: seq<Row>, kb: Id)
    requires DocOk(queued, doc, d, rows)
    ensures DocOk(queued, doc, d, NotIn(rows, kb))
  {
    if rows != [] {
      if rows[0].writer.task.kb == kb {
        NoneNotIn(rows, kb);
      } else {
        AllNotIn(rows, kb);
      }
    }
  }

  lemma {:induction false} RemoveChunksKeepsDb(queued: set<Task>, db: Db, kb: Id, doc: Id)
    requires DbOk(queued, db)
    ensures DbOk(queued, RemoveChunks(db, kb, doc))
  {
    var db' := RemoveChunks(db, kb, doc);
    if doc in db.docs {
      RemovingKeepsDocOk(queued, doc, db.docs[doc], RowsOf(db, doc), kb);
    } else {
      assert RowsOf(db, doc) == [];
    }
    forall d | d in db'.docs && d != doc
      ensures DocOk(queued, d, db'.docs[d], RowsOf(db', d))
    {
      assert RowsOf(db', d) == RowsOf(db, d);
    }
  }

  lemma {:induction false} IndexKeepsDb(queued: set<Task>, db: Db, w: Writer, texts: seq<string>)
    requires DbOk(queued, db) && w.task in queued && texts == Chunker.ChunksOf(w.task.content, w.size, w.overlap)
    ensures DbOk(queued, IndexIfCurrent(db, w, texts).0)
  {
    var db' := IndexIfCurrent(db, w, texts).0;
    forall d | d in db'.docs
      ensures DocOk(queued, d, db'.docs[d], RowsOf(db', d))
    {
      assert d != w.task.doc ==> RowsOf(db', d) == RowsOf(db, d);
    }
  }

  // A statement that leaves the chunks alone and turns no document into a processed one.
  ghost predicate Unsettles(db: Db, db': Db) {
    && db'.chunks == db.chunks && db.docs.Keys <= db'.docs.Keys
    && forall d :: d in db'.docs && d in db.docs ==>
         db'.docs[d].kb == db.docs[d].kb && (db'.docs[d].status == Processed ==> db'.docs[d] == db.docs[d])
  }

  lemma {:induction false} UnsettlingKeepsDb(queued: set<Task>, db: Db, db': Db)
    requires DbOk(queued, db) && Unsettles(db, db')
    ensures DbOk(queued, db')
  {
    forall d | d in db'.docs
      ensures DocOk(queued, d, db'.docs[d], RowsOf(db', d))
    {
      assert RowsOf(db', d) == RowsOf(db, d);
      assert d in db.docs ==> DocOk(queued, d, db.docs[d], RowsOf(db, d));
    }
  }

  lemma {:induction false} DeletingKeepsDb(queued: set<Task>, db: Db, doc: Id)
    requires DbOk(queued, db)
    ensures DbOk(queued, DeleteDocument(db, doc))
  {
    var db' := DeleteDocument(db, doc);
    forall d | d != doc
      ensures RowsOf(db', d) == RowsOf(db, d)
    {
    }
  }

  lemma {:induction false} StatementKeepsDb(queued: set<Task>, db: Db, a: Action)
    requires DbOk(queued, db)
    ensures DbOk(queued, StepDb(db, a))
  {
    match a
    case DoRemoveChunks(kb, doc) => RemoveChunksKeepsDb(queued, db, kb, doc);
    case DoDelete(doc) => DeletingKeepsDb(queued, db, doc);
    case _ => UnsettlingKeepsDb(queued, db, StepDb(db, a));
  }

  lemma {:induction false} StepKeepsWorker(queued: set<Task>, db: Db, k: Worker, outcome: Outcome)
    requires WorkerOk(queued, k)
    ensures WorkerOk(queued, StepWorker(db, k, outcome).1)
  {
  }

  lemma {:induction false} WorkerKeepsDb(queued: set<Task>, db: Db, k: Worker, outcome: Outcome)
    requires DbOk(queued, db) && WorkerOk(queued, k)
    ensures DbOk(queued, StepWorker(db, k, outcome).0) && WorkerOk(queued, StepWorker(db, k, outcome).1)
  {
    StepKeepsWorker(queued, db, k, outcome);
    match k.phase
    case Indexing(texts) => IndexKeepsDb(queued, db, k.w, texts);
    case _ => UnsettlingKeepsDb(queued, db, StepWorker(db, k, outcome).0);
  }

  lemma {:induction false} NextKeepsInv(s: Sys, a: Action)
    requires Inv(s)
    ensures Inv(Next(s, a))
  {
    match a
    case Enqueue(task) =>
      forall d | d in s.db.docs
        ensures DocOk(s.queued + {task}, d, s.db.docs[d], RowsOf(s.db, d))
      {
        assert DocOk(s.queued, d, s.db.docs[d], RowsOf(s.db, d));
      }
    case Deliver(_, _, _, _, _) =>
    case Advance(n, outcome) => if n in s.workers { WorkerKeepsDb(s.queued, s.db, s.workers[n], outcome); }
    case Crash(_) =>
    case _ => StatementKeepsDb(s.queued, s.db, a);
  }

  lemma {:induction false} RunKeepsInv(s: Sys, acts: seq<Action>)
    requires Inv(s)
    ensures Inv(Run(s, acts))
    decreases |acts|
  {
    if acts != [] {
      NextKeepsInv(s, acts[0]);
      RunKeepsInv(Next(s, acts[0]), acts[1..]);
    }
  }

  // ---- the theorems ----

  /**
   In every run, whatever is stored under a processed document is one whole batch: all the chunks of the
   content of one queued task, and that task has the document's current fingerprint and embedding identity.
   */
  lemma {:induction false} ProcessedChunksAreCurrent(acts: seq<Action>, doc: Id)
    requires doc in Run(INIT, acts).db.docs && Run(INIT, acts).db.docs[doc].status == Processed
    requires RowsOf(Run(INIT, acts).db, doc) != []
    ensures
      var s := Run(INIT, acts);
      var d, rows := s.db.docs[doc], RowsOf(s.db, doc);
      exists w: Writer :: Whole(rows, w) && w.task in s.queued && w.task.hash == d.hash
          && w.task == Task(d.kb, doc, d.hash, d.identity, w.task.content)
  {
    RunKeepsInv(INIT, acts);
    var s := Run(INIT, acts);
    var rows := RowsOf(s.db, doc);
    assert DocOk(s.queued, doc, s.db.docs[doc], rows);
    var w := rows[0].writer;
    assert Whole(rows, w);
  }

  // ---- processed documents without rows ----

  // The action indexes the document: it runs the transaction of a worker whose task the document waits for.
  predicate Indexes(s: Sys, a: Action, doc: Id) {
    && a.Advance? && a.worker in s.workers && !a.outcome.Broken?
    && var k := s.workers[a.worker]; k.phase.Indexing? && k.w.task.doc == doc && Current(s.db, k.w.task)
  }

  // Of the indexings of the document and the removals of its rows, the last one is a removal.
  predicate RemovedLast(acts: seq<Action>, doc: Id, kb: Id) {
    acts != [] &&
      var front, a := acts[..|acts| - 1], acts[|acts| - 1];
      !Indexes(Run(INIT, front), a, doc) && (a == DoRemoveChunks(kb, doc) || RemovedLast(front, doc, kb))
  }

  lemma {:induction false} RunOneMore(s: Sys, acts: seq<Action>, a: Action)
    ensures Run(s, acts + [a]) == Next(Run(s, acts), a)
    decreases |acts|
  {
    if acts == [] {
      assert [a][1..] == [];
      assert Run(Next(s, a), []) == Next(s, a);
    } else {
      assert (acts + [a])[1..] == acts[1..] + [a];
      RunOneMore(Next(s, acts[0]), acts[1..], a);
    }
  }

  lemma {:induction false} IndexingLeavesRows(s: Sys, a: Action, doc: Id)
    requires Inv(s) && Indexes(s, a, doc)
    ensures doc in Next(s, a).db.docs && RowsOf(Next(s, a).db, doc) != []
  {
    assert WorkerOk(s.queued, s.workers[a.worker]);
  }

  lemma {:induction false} WorkerKeepsProcessed(db: Db, k: Worker, outcome: Outcome, doc: Id)
    requires !(k.phase.Indexing? && k.w.task.doc == doc && Current(db, k.w.task) && !outcome.Broken?)
    requires doc in StepWorker(db, k, outcome).0.docs && StepWorker(db, k, outcome).0.docs[doc].status == Processed
    ensures doc in db.docs && db.docs[doc] == StepWorker(db, k, outcome).0.docs[doc]
    ensures RowsOf(StepWorker(db, k, outcome).0, doc) == RowsOf(db, doc)
  {
    assert !k.phase.Indexing? ==> StepWorker(db, k, outcome).0.chunks == db.chunks;
  }

  lemma {:induction false} StatementKeepsProcessed(db: Db, a: Action, doc: Id)
    requires doc in StepDb(db, a).docs && StepDb(db, a).docs[doc].status == Processed
    ensures doc in db.docs && db.docs[doc] == StepDb(db, a).docs[doc]
    ensures RowsOf(StepDb(db, a), doc) ==
      if a.DoRemoveChunks? && a.doc == doc then NotIn(RowsOf(db, doc), a.kb) else RowsOf(db, doc)
  {
    assert !a.DoRemoveChunks? && !a.DoDelete? ==> StepDb(db, a).chunks == db.chunks;
  }

  // Without an indexing a processed document was processed before, with the same rows, unless they are removed.
  lemma {:induction false} OtherStepsKeepProcessed(s: Sys, a: Action, doc: Id)
    requires !Indexes(s, a, doc) && doc in Next(s, a).db.docs && Next(s, a).db.docs[doc].status == Processed
    ensures doc in s.db.docs && s.db.docs[doc] == Next(s, a).db.docs[doc]
    ensures RowsOf(Next(s, a).db, doc) ==
      if a.DoRemoveChunks? && a.doc == doc then NotIn(RowsOf(s.db, doc), a.kb) else RowsOf(s.db, doc)
  {
    match a
    case Enqueue(_) =>
    case Deliver(_, _, _, _, _) =>
    case Crash(_) =>
    case Advance(n, outcome) =>
      if n in s.workers {
        WorkerKeepsProcessed(s.db, s.workers[n], outcome, doc);
      }
    case _ => StatementKeepsProcessed(s.db, a, doc);
  }

  lemma {:induction false} RemovalTakesAll(s: Sys, doc: Id, kb: Id)
    requires Inv(s) && doc in s.db.docs
    ensures NotIn(RowsOf(s.db, doc), kb) == if s.db.docs[doc].kb == kb then [] else RowsOf(s.db, doc)
  {
    var rows := RowsOf(s.db, doc);
    assert DocOk(s.queued, doc, s.db.docs[doc], rows);
    if s.db.docs[doc].kb == kb {
      NoneNotIn(rows, kb);
    } else {
      AllNotIn(rows, kb);
    }
  }

  /**
   A processed document has no rows exactly if, since it was last indexed, a removal in its own knowledge base took
   them: in every run, and never for any other reason.
   */
  lemma {:induction false} ProcessedIsEmptyIff(acts: seq<Action>, doc: Id)
    requires doc in Run(INIT, acts).db.docs && Run(INIT, acts).db.docs[doc].status == Processed
    ensures RowsOf(Run(INIT, acts).db, doc) == [] <==> RemovedLast(acts, doc, Run(INIT, acts).db.docs[doc].kb)
    decreases |acts|
  {
    if acts != [] {
      var front, a := acts[..|acts| - 1], acts[|acts| - 1];
      assert acts == front + [a];
      RunOneMore(INIT, front, a);
      RunKeepsInv(INIT, front);
      var s := Run(INIT, front);
      if Indexes(s, a, doc) {
        IndexingLeavesRows(s, a, doc);
      } else {
        OtherStepsKeepProcessed(s, a, doc);
        ProcessedIsEmptyIff(front, doc);
        if a.DoRemoveChunks? && a.doc == doc {
          RemovalTakesAll(s, doc, a.kb);
        }
      }
    }
  }

  /** No chunk row outlives its document. */
  lemma {:induction false} NoOrphanChunks(acts: seq<Action>, doc: Id)
    requires doc !in Run(INIT, acts).db.docs
    ensures RowsOf(Run(INIT, acts).db, doc) == []
  {
    RunKeepsInv(INIT, acts);
  }

  // The document waits at this task's version.
  predicate AtVersion(d: Doc, task: Task) {
    d.hash == task.hash && d.identity == task.identity
  }

  // A worker step changes a document, or what lies under it, only if the document waits at its task's version.
  lemma {:induction false} StaleWorkerChangesNothing(db: Db, k: Worker, outcome: Outcome, doc: Id)
    requires doc in db.docs
    requires k.w.task.doc != doc || !AtVersion(db.docs[doc], k.w.task) || db.docs[doc].status == Processed
    ensures
      var db' := StepWorker(db, k, outcome).0;
      doc in db'.docs && db'.docs[doc] == db.docs[doc] && RowsOf(db', doc) == RowsOf(db, doc)
  {
  }

  // Queueing, delivering, working and crashing, and nothing that moves a document to another version.
  predicate WorkersOnly(acts: seq<Action>) {
    forall a <- acts :: a.Enqueue? || a.Deliver? || a.Advance? || a.Crash?
  }

  // Every task there is or will be for the document is for another version than it waits at.
  predicate AllStale(queued: set<Task>, acts: seq<Action>, doc: Id, d: Doc) {
    && (forall t <- queued :: t.doc == doc ==> !AtVersion(d, t))
    && (forall a <- acts :: a.Enqueue? && a.task.doc == doc ==> !AtVersion(d, a.task))
  }

  // The document is processed, or no task can index it.
  predicate Settled(s: Sys, acts: seq<Action>, doc: Id) {
    doc in s.db.docs && (s.db.docs[doc].status == Processed || AllStale(s.queued, acts, doc, s.db.docs[doc]))
  }

  // The tasks stay stale while workers run.
  lemma {:induction false} StaysStale(s: Sys, acts: seq<Action>, doc: Id, d: Doc)
    requires acts != [] && WorkersOnly(acts) && AllStale(s.queued, acts, doc, d)
    ensures AllStale(Next(s, acts[0]).queued, acts[1..], doc, d)
  {
    var a := acts[0];
    assert a in acts && forall b <- acts[1..] :: b in acts;
    forall t <- Next(s, a).queued | t.doc == doc
      ensures !AtVersion(d, t)
    {
      assert t in s.queued || (a.Enqueue? && t == a.task);
    }
  }

  // Of the workers' actions only a step touches the tables, and never a document that is settled.
  lemma {:induction false} SettledDocStays(s: Sys, acts: seq<Action>, doc: Id)
    requires Inv(s) && acts != [] && WorkersOnly(acts) && Settled(s, acts, doc)
    ensures
      var s' := Next(s, acts[0]);
      doc in s'.db.docs && s'.db.docs[doc] == s.db.docs[doc] && RowsOf(s'.db, doc) == RowsOf(s.db, doc)
  {
    var a := acts[0];
    assert a in acts;
    if a.Advance? && a.worker in s.workers {
      assert WorkerOk(s.queued, s.workers[a.worker]);
      StaleWorkerChangesNothing(s.db, s.workers[a.worker], a.outcome, doc);
    }
  }

  lemma {:induction false} SettledStep(s: Sys, acts: seq<Action>, doc: Id)
    requires Inv(s) && acts != [] && WorkersOnly(acts) && Settled(s, acts, doc)
    ensures
      var s' := Next(s, acts[0]);
      && Settled(s', acts[1..], doc) && WorkersOnly(acts[1..])
      && s'.db.docs[doc] == s.db.docs[doc] && RowsOf(s'.db, doc) == RowsOf(s.db, doc)
  {
    SettledDocStays(s, acts, doc);
    assert forall b <- acts[1..] :: b in acts;
    if s.db.docs[doc].status != Processed {
      StaysStale(s, acts, doc, s.db.docs[doc]);
    }
  }

  /**
   However many tasks are delivered, in whatever interleaving, with crashes and repeats: a document that is
   processed stays as it is, with its chunks, and so does one for which every task is stale.
   */
  lemma {:induction false} StaleTasksChangeNothing(s: Sys, acts: seq<Action>, doc: Id)
    requires Inv(s) && WorkersOnly(acts) && Settled(s, acts, doc)
    ensures
      var s' := Run(s, acts);
      doc in s'.db.docs && s'.db.docs[doc] == s.db.docs[doc] && RowsOf(s'.db, doc) == RowsOf(s.db, doc)
    decreases |acts|
  {
    if acts != [] {
      SettledStep(s, acts, doc);
      NextKeepsInv(s, acts[0]);
      StaleTasksChangeNothing(Next(s, acts[0]), acts[1..], doc);
    }
  }

  /**
   A task that was indexed is indexed no more: delivered again, in any run of workers, it leaves the
   document and its chunks alone.
   */
  lemma {:induction false} RedeliveryChangesNothing(s: Sys, n: nat, acts: seq<Action>)
    requires Inv(s) && n in s.workers && s.workers[n].phase.Indexing? && Current(s.db, s.workers[n].w.task)
      && WorkersOnly(acts)
    ensures
      var doc := s.workers[n].w.task.doc;
      var s' := Run(Next(s, Advance(n, Fine)), acts);
      && doc in s'.db.docs && s'.db.docs[doc] == s.db.docs[doc].(status := Processed)
      && RowsOf(s'.db, doc) == NewRows(s.workers[n].w, s.workers[n].phase.texts)
  {
    NextKeepsInv(s, Advance(n, Fine));
    StaleTasksChangeNothing(Next(s, Advance(n, Fine)), acts, s.workers[n].w.task.doc);
  }

  /**
   A search sees only chunks of its own embedding identity, each written by a task with the version its
   document has now, and the row's own identity column never hides anything the document's does not.
   */
  lemma {:induction false} SearchSeesCurrentChunks(acts: seq<Action>, kb: Id, doc: Id, row: Row, identity: Id)
    ensures
      var s := Run(INIT, acts);
      Visible(s.db, kb, doc, row, identity) ==>
        && row.writer.task.identity == identity && row.writer.task.hash == s.db.docs[doc].hash
        && row.writer.task.doc == doc && row.writer.task.kb == kb && row.writer.task in s.queued
    ensures
      var s := Run(INIT, acts);
      doc in s.db.docs && s.db.docs[doc].status == Processed && s.db.docs[doc].identity == identity
          && row in RowsOf(s.db, doc) ==>
        row.identity == identity && row.kb == s.db.docs[doc].kb
  {
    RunKeepsInv(INIT, acts);
    var s := Run(INIT, acts);
    if doc in s.db.docs {
      assert DocOk(s.queued, doc, s.db.docs[doc], RowsOf(s.db, doc));
    }
  }

  /**
   A knowledge base that is activated has no document left at another version: until every one of them has
   been indexed again, an activation after a change of model is refused.
   */
  lemma {:induction false} ActivationMeansAllIndexed(acts: seq<Action>, kb: Id, identity: Id, doc: Id)
    requires
      var db := Run(INIT, acts).db;
      ActivateIfReady(db, kb, identity).1 && doc in db.docs && db.docs[doc].kb == kb
    ensures
      var s := Run(INIT, acts);
      var rows := RowsOf(s.db, doc);
      rows == [] || (Whole(rows, rows[0].writer) && rows[0].writer.task.identity == identity
          && rows[0].writer.task.hash == s.db.docs[doc].hash)
  {
    RunKeepsInv(INIT, acts);
    var s := Run(INIT, acts);
    assert DocOk(s.queued, doc, s.db.docs[doc], RowsOf(s.db, doc));
  }
}
