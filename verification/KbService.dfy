/**
 The knowledge-base service: the tables as an object whose methods are the statements, the ingest pipeline
 that a worker runs, and the sync of a connector's listing.  Run alone, the pipeline is what the workers of
 IngestRuns do one statement at a time; what a sync leaves behind is Synced.
 */
module KbService {
  import opened Prelude
  import opened KbStatements
  import IngestRuns
  import Chunker

  class KbTables {
    var kbs: map<Id, Kb>
    var docs: map<Id, Doc>
    var chunks: map<Id, seq<Row>>

    ghost function State(): Db
      reads this
    {
      Db(kbs, docs, chunks)
    }

    constructor ()
      ensures State() == EMPTY
    {
      kbs, docs, chunks := map[], map[], map[];
    }

    method UpsertDocument(doc: Id, kb: Id, hash: Id, identity: Id)
      modifies this
      ensures State() == Upsert(old(State()), doc, kb, hash, identity)
    {
      if doc in docs {
        docs := docs[doc := docs[doc].(hash := hash, identity := identity, status := Pending)];
      } else if kb in kbs {
        docs := docs[doc := Doc(kb, hash, identity, Pending)];
      }
    }

    method UpdateKBChunkingConfig(kb: Id, chunking: Id)
      modifies this
      ensures State() == SetChunking(old(State()), kb, chunking)
    {
      if kb in kbs {
        kbs := kbs[kb := kbs[kb].(chunking := chunking)];
      }
    }

    method SetKBIndexing(kb: Id, identity: Id)
      modifies this
      ensures State() == SetIndexing(old(State()), kb, identity)
    {
      if kb in kbs {
        kbs := kbs[kb := kbs[kb].(model := identity, status := KbIndexing)];
      }
    }

    method MarkKBDocumentsPending(kb: Id, identity: Id)
      modifies this
      ensures State() == MarkPending(old(State()), kb, identity)
    {
      docs := map d | d in docs ::
        if docs[d].kb == kb then docs[d].(status := Pending, identity := identity) else docs[d];
    }

    // The first `calls` of its two statements, if they are fewer.
    method BeginKBReindex(kb: Id, identity: Id, calls: nat) returns (ok: bool)
      modifies this
      ensures ok <==> calls >= 2
      ensures State() ==
        if calls == 0 then old(State())
        else if calls == 1 then SetIndexing(old(State()), kb, identity)
        else MarkPending(SetIndexing(old(State()), kb, identity), kb, identity)
    {
      if calls == 0 {
        return false;
      }
      SetKBIndexing(kb, identity);
      if calls == 1 {
        return false;
      }
      MarkKBDocumentsPending(kb, identity);
      return true;
    }

    method RemoveDocument(kb: Id, doc: Id)
      modifies this
      ensures State() == RemoveChunks(old(State()), kb, doc)
    {
      chunks := chunks[doc := NotIn(if doc in chunks then chunks[doc] else [], kb)];
    }

    method DeleteDocument(doc: Id)
      modifies this
      ensures State() == KbStatements.DeleteDocument(old(State()), doc)
    {
      docs := docs - {doc};
      chunks := chunks - {doc};
    }

    method CurrentDocumentVersion(task: Task, identity: Id) returns (current: bool)
      ensures current <==> task.identity == identity && Current(State(), task)
    {
      if task.identity != identity || task.doc !in docs {
        return false;
      }
      var d := docs[task.doc];
      current := d.kb == task.kb && d.hash == task.hash && d.identity == task.identity && d.status != Processed;
    }

    method IndexIfCurrent(w: Writer, texts: seq<string>) returns (indexed: bool)
      modifies this
      ensures (State(), indexed) == KbStatements.IndexIfCurrent(old(State()), w, texts)
      ensures indexed ==> w.task.doc in chunks && |chunks[w.task.doc]| == |texts|
      ensures indexed ==> forall i :: 0 <= i < |texts| ==>
        chunks[w.task.doc][i] == Row(w.task.kb, i, texts[i], w.task.identity, w)
    {
      var task := w.task;
      if task.doc !in docs || docs[task.doc].kb != task.kb || docs[task.doc].hash != task.hash
         || docs[task.doc].identity != task.identity || docs[task.doc].status == Processed {
        return false;
      }
      var rows: seq<Row> := [];
      for i := 0 to |texts|
        invariant rows == NewRows(w, texts)[..i]
      {
        rows := rows + [Row(task.kb, i, texts[i], task.identity, w)];
      }
      assert NewRows(w, texts)[..|texts|] == NewRows(w, texts);
      chunks := chunks[task.doc := rows];
      docs := docs[task.doc := docs[task.doc].(status := Processed)];
      return true;
    }

    method MarkDocumentStatusIfCurrent(doc: Id, hash: Id, identity: Id, status: DocStatus) returns (marked: bool)
      modifies this
      ensures (State(), marked) == MarkIfCurrent(old(State()), doc, hash, identity, status)
    {
      if doc in docs && docs[doc].hash == hash && docs[doc].identity == identity && docs[doc].status != Processed {
        docs := docs[doc := docs[doc].(status := status)];
        return true;
      }
      return false;
    }

    method ActivateKBIfReady(kb: Id, identity: Id) returns (activated: bool)
      modifies this
      ensures (State(), activated) == ActivateIfReady(old(State()), kb, identity)
      ensures activated <==>
        kb in old(kbs) && old(kbs)[kb].model == identity
        && forall d :: d in docs && docs[d].kb == kb ==> docs[d].status == Processed && docs[d].identity == identity
      ensures activated ==> kbs == old(kbs)[kb := old(kbs)[kb].(status := KbActive)]
    {
      if kb !in kbs || kbs[kb].model != identity {
        return false;
      }
      var todo := docs.Keys;
      while todo != {}
        invariant todo <= docs.Keys && State() == old(State())
        invariant forall d :: d in docs && d !in todo && docs[d].kb == kb ==>
            docs[d].status == Processed && docs[d].identity == identity
        decreases |todo|
      {
        var d :| d in todo;
        if docs[d].kb == kb && (docs[d].status != Processed || docs[d].identity != identity) {
          return false;
        }
        todo := todo - {d};
      }
      kbs := kbs[kb := kbs[kb].(status := KbActive)];
      return true;
    }
  }

  // ---- the ingest pipeline ----

  // How the pipeline's outside calls end.
  datatype Faults = Faults(read: IngestRuns.Outcome, embed: IngestRuns.Outcome, index: IngestRuns.Outcome,
      mark: IngestRuns.Outcome, activate: IngestRuns.Outcome)

  function OutcomeIn(phase: IngestRuns.Phase, f: Faults): IngestRuns.Outcome {
    match phase
    case Checking => f.read
    case Working => f.embed
    case Indexing(_) => f.index
    case Failing => f.mark
    case _ => f.activate
  }

  function Left(phase: IngestRuns.Phase): nat {
    match phase
    case Checking => 4
    case Working => 3
    case Indexing(_) => 2
    case Finished => 0
    case _ => 1
  }

  // One worker's steps with nobody else about.
  function Alone(db: Db, k: IngestRuns.Worker, f: Faults): Db
    decreases Left(k.phase)
  {
    if k.phase.Finished? then db
    else
      var (db', k') := IngestRuns.StepWorker(db, k, OutcomeIn(k.phase, f));
      Alone(db', k', f)
  }

  // It reports no error: a task that is not current is simply done.
  function Succeeds(db: Db, k: IngestRuns.Worker, f: Faults): bool
    decreases Left(k.phase)
  {
    var outcome := OutcomeIn(k.phase, f);
    var (db', k') := IngestRuns.StepWorker(db, k, outcome);
    match k.phase
    case Checking => k.w.task.identity != k.identity || (outcome.Fine? && Succeeds(db', k', f))
    case Failing => false
    case Activating => outcome.Fine?
    case Finished => true
    case _ => Succeeds(db', k', f)
  }

  // The steps the pipeline still has to take lead where they led from the start.
  ghost predicate OnTheWay(db: Db, k: IngestRuns.Worker, f: Faults, end: Db, ok: bool) {
    Alone(db, k, f) == end && Succeeds(db, k, f) == ok
  }

  lemma {:induction false} StepOn(db: Db, k: IngestRuns.Worker, f: Faults, end: Db, ok: bool)
    requires OnTheWay(db, k, f, end, ok)
    ensures
      var (db', k') := IngestRuns.StepWorker(db, k, OutcomeIn(k.phase, f));
      && Alone(db', k', f) == end
      && (k.phase.Working? || k.phase.Indexing? ==> OnTheWay(db', k', f, end, ok))
      && (k.phase.Checking? && f.read.Fine? && k.w.task.identity == k.identity ==> OnTheWay(db', k', f, end, ok))
  {
  }

  // The worker takes the task up: its embedder is the task's, the document could be read, and waits at the version.
  predicate TakenUp(db: Db, task: Task, identity: Id, f: Faults) {
    task.identity == identity && f.read.Fine? && Current(db, task)
  }

  // No chunks, or an error before they are stored.
  predicate NotIndexed(w: Writer, f: Faults) {
    Chunker.ChunksOf(w.task.content, w.size, w.overlap) == [] || !f.embed.Fine? || f.index.Broken?
  }

  // All documents of the task's knowledge base are processed by its embedder, and that is the embedder configured.
  predicate Complete(db: Db, task: Task) {
    && task.kb in db.kbs && db.kbs[task.kb].model == task.identity
    && forall d :: d in db.docs && db.docs[d].kb == task.kb ==>
         db.docs[d].status == Processed && db.docs[d].identity == task.identity
  }

  // The steps of the pipeline after its first one.
  lemma {:induction false} WorkingEnds(db: Db, k: IngestRuns.Worker, f: Faults)
    requires k.phase.Working? && Current(db, k.w.task)
    ensures NotIndexed(k.w, f) ==> !Succeeds(db, k, f)
    ensures NotIndexed(k.w, f) ==>
      Alone(db, k, f).docs == if f.mark.Broken? then db.docs
        else db.docs[k.w.task.doc := db.docs[k.w.task.doc].(status := Failed)]
    ensures NotIndexed(k.w, f) ==> Alone(db, k, f).chunks == db.chunks && Alone(db, k, f).kbs == db.kbs
    ensures !NotIndexed(k.w, f) ==>
      var texts := Chunker.ChunksOf(k.w.task.content, k.w.size, k.w.overlap);
      OnTheWay(db, k.(phase := IngestRuns.Indexing(texts)), f, Alone(db, k, f), Succeeds(db, k, f))
  {
    var task := k.w.task;
    var texts := Chunker.ChunksOf(task.content, k.w.size, k.w.overlap);
    var indexing, failing := k.(phase := IngestRuns.Indexing(texts)), k.(phase := IngestRuns.Failing);
    StepOn(db, k, f, Alone(db, k, f), Succeeds(db, k, f));
    if NotIndexed(k.w, f) {
      if texts != [] && f.embed.Fine? {
        StepOn(db, indexing, f, Alone(db, k, f), Succeeds(db, k, f));
      }
      assert Alone(db, failing, f) == Alone(db, k, f) && Succeeds(db, failing, f) == Succeeds(db, k, f);
      FailingEnds(db, failing, f);
    }
  }

  lemma {:induction false} FailingEnds(db: Db, k: IngestRuns.Worker, f: Faults)
    requires k.phase.Failing?
    ensures !Succeeds(db, k, f)
    ensures Alone(db, k, f) == if f.mark.Broken? then db
      else MarkIfCurrent(db, k.w.task.doc, k.w.task.hash, k.w.task.identity, Failed).0
  {
    StepOn(db, k, f, Alone(db, k, f), Succeeds(db, k, f));
  }

  lemma {:induction false} IndexingEnds(db: Db, k: IngestRuns.Worker, f: Faults)
    requires k.phase.Indexing? && Current(db, k.w.task) && !f.index.Broken?
    ensures
      var end, doc := Alone(db, k, f), k.w.task.doc;
      && Succeeds(db, k, f) == (f.index.Fine? && f.activate.Fine?)
      && end.docs == db.docs[doc := db.docs[doc].(status := Processed)]
      && end.chunks == db.chunks[doc := NewRows(k.w, k.phase.texts)]
    ensures
      var end, kb := Alone(db, k, f), k.w.task.kb;
      end.kbs == if f.index.Fine? && !f.activate.Broken? && Complete(db.(docs := end.docs), k.w.task)
                 then db.kbs[kb := db.kbs[kb].(status := KbActive)] else db.kbs
  {
    var indexed := IndexIfCurrent(db, k.w, k.phase.texts).0;
    StepOn(db, k, f, Alone(db, k, f), Succeeds(db, k, f));
    if f.index.Torn? {
      FailingEnds(indexed, k.(phase := IngestRuns.Failing), f);
    } else {
      var activating := k.(phase := IngestRuns.Activating);
      StepOn(indexed, activating, f, Alone(indexed, activating, f), Succeeds(indexed, activating, f));
    }
  }

  /**
   Where the pipeline leads: a task that is not taken up changes nothing; one that cannot be indexed leaves its
   document failed, if that can be written; any other leaves it processed, with all the chunks of its content, and the
   knowledge base active if that completes it.
   */
  lemma {:induction false} PipelineEnds(db: Db, w: Writer, identity: Id, f: Faults)
    ensures
      var k := IngestRuns.Worker(w, identity, IngestRuns.Checking);
      var end, doc := Alone(db, k, f), w.task.doc;
      if !TakenUp(db, w.task, identity, f) then
        end == db && (Succeeds(db, k, f) <==> w.task.identity != identity || f.read.Fine?)
      else if NotIndexed(w, f) then
        && !Succeeds(db, k, f) && end.chunks == db.chunks && end.kbs == db.kbs
        && end.docs == if f.mark.Broken? then db.docs else db.docs[doc := db.docs[doc].(status := Failed)]
      else
        && (Succeeds(db, k, f) <==> f.index.Fine? && f.activate.Fine?)
        && end.docs == db.docs[doc := db.docs[doc].(status := Processed)]
        && end.chunks == db.chunks[doc := NewRows(w, Chunker.ChunksOf(w.task.content, w.size, w.overlap))]
        && end.kbs == if f.index.Fine? && !f.activate.Broken? && Complete(db.(docs := end.docs), w.task)
                      then db.kbs[w.task.kb := db.kbs[w.task.kb].(status := KbActive)] else db.kbs
  {
    var k := IngestRuns.Worker(w, identity, IngestRuns.Checking);
    var working := k.(phase := IngestRuns.Working);
    StepOn(db, k, f, Alone(db, k, f), Succeeds(db, k, f));
    if TakenUp(db, w.task, identity, f) {
      WorkingEnds(db, working, f);
      if !NotIndexed(w, f) {
        var texts := Chunker.ChunksOf(w.task.content, w.size, w.overlap);
        IndexingEnds(db, k.(phase := IngestRuns.Indexing(texts)), f);
      }
    }
  }

  method IngestDocumentVersion(tables: KbTables, w: Writer, identity: Id, f: Faults) returns (ok: bool)
    modifies tables
    ensures tables.State() == Alone(old(tables.State()), IngestRuns.Worker(w, identity, IngestRuns.Checking), f)
    ensures ok == Succeeds(old(tables.State()), IngestRuns.Worker(w, identity, IngestRuns.Checking), f)
  {
    var task := w.task;
    ghost var k := IngestRuns.Worker(w, identity, IngestRuns.Checking);
    ghost var end, ends := Alone(tables.State(), k, f), Succeeds(tables.State(), k, f);
    var current := tables.CurrentDocumentVersion(task, identity);
    StepOn(tables.State(), k, f, end, ends);
    if task.identity == identity && !f.read.Fine? {
      return false;
    }
    if !current {
      return true;
    }
    k := k.(phase := IngestRuns.Working);
    var texts := Chunker.ChunkText(task.content, w.size, w.overlap);
    StepOn(tables.State(), k, f, end, ends);
    if |texts| == 0 || !f.embed.Fine? {
      Fail(tables, w, identity, f, end);
      return false;
    }
    k := k.(phase := IngestRuns.Indexing(texts));
    StepOn(tables.State(), k, f, end, ends);
    if f.index.Broken? {
      Fail(tables, w, identity, f, end);
      return false;
    }
    var indexed := tables.IndexIfCurrent(w, texts);
    if f.index.Torn? {
      Fail(tables, w, identity, f, end);
      return false;
    }
    if !indexed {
      return true;
    }
    k := k.(phase := IngestRuns.Activating);
    StepOn(tables.State(), k, f, end, ends);
    if !f.activate.Broken? {
      var _ := tables.ActivateKBIfReady(task.kb, task.identity);
    }
    ok := f.activate.Fine?;
  }

  method Fail(tables: KbTables, w: Writer, identity: Id, f: Faults, ghost end: Db)
    requires Alone(tables.State(), IngestRuns.Worker(w, identity, IngestRuns.Failing), f) == end
    modifies tables
    ensures tables.State() == end
  {
    ghost var k := IngestRuns.Worker(w, identity, IngestRuns.Failing);
    StepOn(tables.State(), k, f, end, Succeeds(tables.State(), k, f));
    if !f.mark.Broken? {
      var _ := tables.MarkDocumentStatusIfCurrent(w.task.doc, w.task.hash, w.task.identity, Failed);
    }
  }
}
