/**
 The sync of a listing without a queue: each source is indexed as soon as it is stored, by the ingest pipeline
 itself.  A source that cannot be indexed stops the sync.
 */
module KbInlineSync {
  import opened Prelude
  import opened KbStatements
  import opened KbService
  import opened KbSync
  import Chunker
  import IngestRuns

  // The chunking the process is configured with.
  datatype Cut = Cut(size: int, overlap: int)

  function WriterFor(y: Sync, c: Cut, m: Meta): Writer {
    Writer(TaskFor(y, m), c.size, c.overlap)
  }

  function Starting(y: Sync, c: Cut, m: Meta): IngestRuns.Worker {
    IngestRuns.Worker(WriterFor(y, c, m), y.identity, IngestRuns.Checking)
  }

  function Stored(db: Db, y: Sync, m: Meta): Db {
    Upsert(db, m.doc, y.kb, y.fingerprint(y.identity, m.hash), y.identity)
  }

  // One source, with its pipeline's outside calls ending as `f` says.
  function InlineOne(db: Db, y: Sync, c: Cut, m: Meta, f: Faults): Db {
    if Skips(db, y, m) then db else Alone(Stored(db, y, m), Starting(y, c, m), f)
  }

  predicate InlineOk(db: Db, y: Sync, c: Cut, m: Meta, f: Faults) {
    Skips(db, y, m) || Succeeds(Stored(db, y, m), Starting(y, c, m), f)
  }

  function InlineFirst(db: Db, y: Sync, c: Cut, fs: seq<Faults>, n: nat): Db
    requires n <= |y.metas| == |fs|
  {
    if n == 0 then db else InlineOne(InlineFirst(db, y, c, fs, n - 1), y, c, y.metas[n - 1], fs[n - 1])
  }

  // No source up to the n-th has stopped the sync.
  predicate AllInline(db: Db, y: Sync, c: Cut, fs: seq<Faults>, n: nat)
    requires n <= |y.metas| == |fs|
  {
    n == 0 || (AllInline(db, y, c, fs, n - 1)
               && InlineOk(InlineFirst(db, y, c, fs, n - 1), y, c, y.metas[n - 1], fs[n - 1]))
  }

  function SyncedInline(db: Db, y: Sync, c: Cut, fs: seq<Faults>): Db
    requires y.kb in db.kbs && |y.metas| == |fs|
  {
    ActivateIfReady(InlineFirst(Prepared(db, y), y, c, fs, |y.metas|), y.kb, y.identity).0
  }

  // ---- the program ----

  // One source: fetched, stored and indexed, or skipped.
  method IngestSource(tables: KbTables, y: Sync, c: Cut, m: Meta, f: Faults, calls: nat)
    returns (ok: bool, left: nat, ingested: bool, ghost touched: bool)
    modifies tables
    ensures ok ==> tables.State() == InlineOne(old(tables.State()), y, c, m, f) && left + 2 >= calls
    ensures ok ==> InlineOk(old(tables.State()), y, c, m, f) && ingested == !Skips(old(tables.State()), y, m)
    ensures !ok ==> tables.State() == if touched then InlineOne(old(tables.State()), y, c, m, f)
      else old(tables.State())
    ensures !ok ==> calls < 2 || !InlineOk(old(tables.State()), y, c, m, f)
  {
    ok, left, ingested, touched := true, calls, false, false;
    var fingerprint := y.fingerprint(y.identity, m.hash);
    if m.doc in tables.docs && tables.docs[m.doc].hash == fingerprint
       && tables.docs[m.doc].identity == y.identity && tables.docs[m.doc].status == Processed {
      return;
    }
    if calls < 2 {
      return false, 0, false, false;
    }
    tables.UpsertDocument(m.doc, y.kb, fingerprint, y.identity);
    left := calls - 2;
    ok := IngestDocumentVersion(tables, WriterFor(y, c, m), y.identity, f);
    ingested, touched := ok, true;
  }

  lemma {:induction false} StoppedThere(db: Db, y: Sync, c: Cut, fs: seq<Faults>, i: nat, n: nat)
    requires i < n <= |y.metas| == |fs| && !InlineOk(InlineFirst(db, y, c, fs, i), y, c, y.metas[i], fs[i])
    ensures !AllInline(db, y, c, fs, n)
    decreases n
  {
    if i < n - 1 {
      StoppedThere(db, y, c, fs, i, n - 1);
    }
  }

  // The listed sources in order, until a call fails or a source cannot be indexed.
  method IngestSources(tables: KbTables, y: Sync, c: Cut, fs: seq<Faults>, calls: nat)
    returns (ok: bool, left: nat, skipped: nat, ingested: nat, ghost n: nat)
    requires |fs| == |y.metas|
    modifies tables
    ensures n <= |y.metas| && tables.State() == InlineFirst(old(tables.State()), y, c, fs, n)
    ensures ok ==> n == |y.metas| && AllInline(old(tables.State()), y, c, fs, n) && skipped + ingested == n
    ensures ok ==> left + 2 * n >= calls
    ensures !ok ==> calls < 2 * |y.metas| || !AllInline(old(tables.State()), y, c, fs, |y.metas|)
  {
    ok, left, skipped, ingested, n := true, calls, 0, 0, 0;
    ghost var before := tables.State();
    for i := 0 to |y.metas|
      invariant ok && n == i && tables.State() == InlineFirst(before, y, c, fs, i)
      invariant AllInline(before, y, c, fs, i) && skipped + ingested == i && left + 2 * i >= calls
    {
      var done;
      ghost var touched;
      ok, left, done, touched := IngestSource(tables, y, c, y.metas[i], fs[i], left);
      if !ok {
        n := if touched then i + 1 else i;
        if !InlineOk(InlineFirst(before, y, c, fs, i), y, c, y.metas[i], fs[i]) {
          StoppedThere(before, y, c, fs, i, |y.metas|);
        }
        return;
      }
      if done {
        ingested := ingested + 1;
      } else {
        skipped := skipped + 1;
      }
      n := i + 1;
    }
  }

  /** The sync without a queue, which stops at its first error. */
  method SyncInline(tables: KbTables, y: Sync, c: Cut, fs: seq<Faults>, calls: nat)
    returns (found: bool, ok: bool, skipped: nat, ingested: nat, deleted: nat, ghost halt: Halt)
    requires |fs| == |y.metas|
    modifies tables
    ensures found <==> y.kb in old(tables.kbs)
    ensures !found ==> !ok && tables.State() == old(tables.State())
    ensures found && ok ==>
      && tables.State() == SyncedInline(old(tables.State()), y, c, fs)
      && AllInline(Prepared(old(tables.State()), y), y, c, fs, |y.metas|)
      && skipped + ingested == |y.metas| && deleted == |Gone(old(tables.State()), y)|
    ensures found && !ok ==> CanHalt(old(tables.State()), y, halt)
    ensures found && !ok ==>
      tables.State() == if halt.AtSource? then InlineFirst(Prepared(old(tables.State()), y), y, c, fs, halt.n)
                        else Halted(old(tables.State()), y, halt)
    ensures found && AllInline(Prepared(old(tables.State()), y), y, c, fs, |y.metas|) ==>
      (calls > 3 + 2 * |Gone(old(tables.State()), y)| + 2 * |y.metas| ==> ok)
  {
    ok, skipped, ingested, deleted, halt := false, 0, 0, 0, AtStart;
    found := y.kb in tables.kbs;
    if !found {
      return;
    }
    var left;
    ghost var n;
    ok, left, deleted, halt := Prepare(tables, y, calls);
    if !ok {
      return;
    }
    ok, left, skipped, ingested, n := IngestSources(tables, y, c, fs, left);
    halt := AtSource(n);
    ok := ok && left > 0;
    if ok {
      var _ := tables.ActivateKBIfReady(y.kb, y.identity);
    }
  }

  // ---- what it leaves behind ----

  // The document is indexed at the version of this source, with all the chunks of its content.
  predicate IndexedAs(db: Db, y: Sync, c: Cut, m: Meta) {
    && m.doc in db.docs && db.docs[m.doc] == Doc(y.kb, y.fingerprint(y.identity, m.hash), y.identity, Processed)
    && Chunker.ChunksOf(m.content, c.size, c.overlap) != []
    && RowsOf(db, m.doc) == NewRows(WriterFor(y, c, m), Chunker.ChunksOf(m.content, c.size, c.overlap))
  }

  // The pipeline that reports no error on a document just stored has indexed it.
  lemma {:induction false} FreshIsIndexed(db: Db, y: Sync, c: Cut, m: Meta, f: Faults)
    requires y.kb in db.kbs && (m.doc in db.docs ==> db.docs[m.doc].kb == y.kb)
    requires Succeeds(Stored(db, y, m), Starting(y, c, m), f)
    ensures IndexedAs(Alone(Stored(db, y, m), Starting(y, c, m), f), y, c, m)
    ensures OnlyTouches(db, Alone(Stored(db, y, m), Starting(y, c, m), f), m.doc)
  {
    var stored, k := Stored(db, y, m), Starting(y, c, m);
    assert Current(stored, k.w.task);
    var working := k.(phase := IngestRuns.Working);
    assert IngestRuns.StepWorker(stored, k, f.read) == (stored, working);
    PastWorking(stored, working, f);
    PastIndexing(stored, k.(phase := IngestRuns.Indexing(Chunker.ChunksOf(m.content, c.size, c.overlap))), f);
  }

  lemma {:induction false} PastWorking(db: Db, k: IngestRuns.Worker, f: Faults)
    requires k.phase.Working? && Succeeds(db, k, f)
    ensures
      var texts := Chunker.ChunksOf(k.w.task.content, k.w.size, k.w.overlap);
      var next := k.(phase := IngestRuns.Indexing(texts));
      texts != [] && Succeeds(db, next, f) && Alone(db, k, f) == Alone(db, next, f)
  {
    var texts := Chunker.ChunksOf(k.w.task.content, k.w.size, k.w.overlap);
    assert IngestRuns.StepWorker(db, k, f.embed) == (db, k.(phase := IngestRuns.Indexing(texts)));
  }

  lemma {:induction false} PastIndexing(db: Db, k: IngestRuns.Worker, f: Faults)
    requires k.phase.Indexing? && Succeeds(db, k, f) && Current(db, k.w.task)
    ensures Alone(db, k, f)
         == ActivateIfReady(IndexIfCurrent(db, k.w, k.phase.texts).0, k.w.task.kb, k.w.task.identity).0
  {
    var indexed := IndexIfCurrent(db, k.w, k.phase.texts).0;
    var activating, finished := k.(phase := IngestRuns.Activating), k.(phase := IngestRuns.Finished);
    assert IngestRuns.StepWorker(db, k, f.index) == (indexed, activating);
    var active := ActivateIfReady(indexed, k.w.task.kb, k.w.task.identity).0;
    assert IngestRuns.StepWorker(indexed, activating, f.activate) == (active, finished);
    assert Alone(active, finished, f) == active;
    assert Alone(indexed, activating, f) == active;
  }

  // Another document and its rows are as they were, and no knowledge base is gone or has another embedder.
  ghost predicate OnlyTouches(db: Db, db': Db, doc: Id) {
    && db'.kbs.Keys == db.kbs.Keys && (forall kb :: kb in db.kbs ==> db'.kbs[kb].model == db.kbs[kb].model)
    && forall d: Id :: d != doc ==>
         (d in db'.docs <==> d in db.docs) && (d in db.docs ==> db'.docs[d] == db.docs[d])
           && RowsOf(db', d) == RowsOf(db, d)
  }

  lemma {:induction false} OneOnlyTouches(db: Db, y: Sync, c: Cut, m: Meta, f: Faults)
    requires y.kb in db.kbs && (m.doc in db.docs ==> db.docs[m.doc].kb == y.kb) && InlineOk(db, y, c, m, f)
    ensures OnlyTouches(db, InlineOne(db, y, c, m, f), m.doc)
    ensures !Skips(db, y, m) ==> IndexedAs(InlineOne(db, y, c, m, f), y, c, m)
  {
    if !Skips(db, y, m) {
      FreshIsIndexed(db, y, c, m, f);
    }
  }

  ghost predicate Untouched(db: Db, db': Db, d: Id) {
    (d in db'.docs <==> d in db.docs) && (d in db.docs ==> db'.docs[d] == db.docs[d]) && RowsOf(db', d) == RowsOf(db, d)
  }

  // The source has been indexed, or its document is as it was.
  ghost predicate SourceAt(db: Db, db': Db, y: Sync, c: Cut, m: Meta, done: bool) {
    if done && !Skips(db, y, m) then IndexedAs(db', y, c, m) else Untouched(db, db', m.doc)
  }

  lemma {:induction false} OthersStayAt(db: Db, p: Db, q: Db, y: Sync, c: Cut, m: Meta, done: bool, doc: Id)
    requires SourceAt(db, p, y, c, m, done) && OnlyTouches(p, q, doc) && m.doc != doc
    ensures SourceAt(db, q, y, c, m, done)
  {
  }

  lemma {:induction false} OneIsAt(db: Db, p: Db, y: Sync, c: Cut, m: Meta, f: Faults)
    requires y.kb in p.kbs && (m.doc in db.docs ==> db.docs[m.doc].kb == y.kb)
    requires SourceAt(db, p, y, c, m, false) && InlineOk(p, y, c, m, f)
    ensures SourceAt(db, InlineOne(p, y, c, m, f), y, c, m, true)
    ensures OnlyTouches(p, InlineOne(p, y, c, m, f), m.doc)
  {
    assert Skips(p, y, m) == Skips(db, y, m);
    OneOnlyTouches(p, y, c, m, f);
  }

  // One source more, p to q, and what it means for any of the sources.
  lemma {:induction false} NextIsAt(db: Db, p: Db, q: Db, y: Sync, c: Cut, f: Faults, n: nat, i: nat)
    requires WellListed(db, y) && n < |y.metas| && i < |y.metas| && y.kb in p.kbs
    requires SourceAt(db, p, y, c, y.metas[n], false) && SourceAt(db, p, y, c, y.metas[i], i < n)
    requires InlineOk(p, y, c, y.metas[n], f) && q == InlineOne(p, y, c, y.metas[n], f)
    ensures SourceAt(db, q, y, c, y.metas[i], i < n + 1) && OnlyTouches(p, q, y.metas[n].doc)
  {
    OneIsAt(db, p, y, c, y.metas[n], f);
    if i != n {
      OthersStayAt(db, p, q, y, c, y.metas[i], i < n, y.metas[n].doc);
    }
  }

  lemma {:induction false} InlineFirstAt(db: Db, y: Sync, c: Cut, fs: seq<Faults>, n: nat, i: nat)
    requires y.kb in db.kbs && WellListed(db, y) && |fs| == |y.metas| && n <= |y.metas| && i < |y.metas|
    requires AllInline(db, y, c, fs, n)
    ensures y.kb in InlineFirst(db, y, c, fs, n).kbs
    ensures SourceAt(db, InlineFirst(db, y, c, fs, n), y, c, y.metas[i], i < n)
    decreases n
  {
    if n > 0 {
      var p := InlineFirst(db, y, c, fs, n - 1);
      InlineFirstAt(db, y, c, fs, n - 1, n - 1);
      InlineFirstAt(db, y, c, fs, n - 1, i);
      NextIsAt(db, p, InlineFirst(db, y, c, fs, n), y, c, fs[n - 1], n - 1, i);
    }
  }

  /**
   A sync without a queue that reports no error leaves every listed source indexed, at its fingerprint and under
   this process's embedder: with all the chunks of its content, or as it was if it was indexed at that version.
   */
  lemma {:induction false} InlineIsIndexed(db: Db, y: Sync, c: Cut, fs: seq<Faults>, i: nat)
    requires y.kb in db.kbs && WellListed(db, y) && |fs| == |y.metas| && i < |y.metas|
    requires AllInline(Prepared(db, y), y, c, fs, |y.metas|)
    ensures
      var m, after := y.metas[i], SyncedInline(db, y, c, fs);
      && m.doc in after.docs
      && after.docs[m.doc] == Doc(y.kb, y.fingerprint(y.identity, m.hash), y.identity, Processed)
      && if Skips(Reindexed(db, y), y, m) then RowsOf(after, m.doc) == RowsOf(db, m.doc) else IndexedAs(after, y, c, m)
  {
    var m := y.metas[i];
    assert m in y.metas;
    assert m.doc in Listed(y.metas) && m.doc !in Gone(db, y);
    InlineFirstAt(Prepared(db, y), y, c, fs, |y.metas|, i);
  }

  lemma {:induction false} InlineElsewhere(db: Db, y: Sync, c: Cut, fs: seq<Faults>, n: nat, doc: Id)
    requires y.kb in db.kbs && WellListed(db, y) && |fs| == |y.metas| && n <= |y.metas| && doc !in Listed(y.metas)
    requires AllInline(db, y, c, fs, n)
    ensures Untouched(db, InlineFirst(db, y, c, fs, n), doc)
    decreases n
  {
    if n > 0 {
      var last := y.metas[n - 1];
      assert last in y.metas;
      assert last.doc in Listed(y.metas);
      InlineElsewhere(db, y, c, fs, n - 1, doc);
      InlineFirstAt(db, y, c, fs, n - 1, n - 1);
      OneIsAt(db, InlineFirst(db, y, c, fs, n - 1), y, c, last, fs[n - 1]);
    }
  }

  lemma {:induction false} InlineAt(db: Db, y: Sync, c: Cut, fs: seq<Faults>, d: Id)
    requires y.kb in db.kbs && WellListed(db, y) && |fs| == |y.metas| && AllInline(db, y, c, fs, |y.metas|)
    requires d in InlineFirst(db, y, c, fs, |y.metas|).docs && InlineFirst(db, y, c, fs, |y.metas|).docs[d].kb == y.kb
    ensures d in Listed(y.metas) || (d in db.docs && db.docs[d] == InlineFirst(db, y, c, fs, |y.metas|).docs[d])
    ensures d in Listed(y.metas) ==> InlineFirst(db, y, c, fs, |y.metas|).docs[d].status == Processed
    ensures d in Listed(y.metas) ==> InlineFirst(db, y, c, fs, |y.metas|).docs[d].identity == y.identity
  {
    if d in Listed(y.metas) {
      var i :| 0 <= i < |y.metas| && y.metas[i].doc == d;
      InlineFirstAt(db, y, c, fs, |y.metas|, i);
    } else {
      InlineElsewhere(db, y, c, fs, |y.metas|, d);
    }
  }

  /** And if the connector lists all there is, the knowledge base is active when the sync ends. */
  lemma {:induction false} InlineActivates(db: Db, y: Sync, c: Cut, fs: seq<Faults>)
    requires y.kb in db.kbs && WellListed(db, y) && |fs| == |y.metas|
    requires AllInline(Prepared(db, y), y, c, fs, |y.metas|)
    requires forall d :: d in db.docs && db.docs[d].kb == y.kb ==> d in Listed(y.metas) || d in Gone(db, y)
    ensures y.kb in SyncedInline(db, y, c, fs).kbs && SyncedInline(db, y, c, fs).kbs[y.kb].status == KbActive
  {
    var prepared := Prepared(db, y);
    var last := InlineFirst(prepared, y, c, fs, |y.metas|);
    forall d | d in last.docs && last.docs[d].kb == y.kb
      ensures last.docs[d].status == Processed && last.docs[d].identity == y.identity
    {
      InlineAt(prepared, y, c, fs, d);
    }
    KeepsModel(prepared, y, c, fs, |y.metas|);
  }

  lemma {:induction false} KeepsModel(db: Db, y: Sync, c: Cut, fs: seq<Faults>, n: nat)
    requires y.kb in db.kbs && WellListed(db, y) && |fs| == |y.metas| && n <= |y.metas| && AllInline(db, y, c, fs, n)
    ensures y.kb in InlineFirst(db, y, c, fs, n).kbs
      && InlineFirst(db, y, c, fs, n).kbs[y.kb].model == db.kbs[y.kb].model
    decreases n
  {
    if n > 0 {
      KeepsModel(db, y, c, fs, n - 1);
      InlineFirstAt(db, y, c, fs, n - 1, n - 1);
      OneIsAt(db, InlineFirst(db, y, c, fs, n - 1), y, c, y.metas[n - 1], fs[n - 1]);
    }
  }
}
