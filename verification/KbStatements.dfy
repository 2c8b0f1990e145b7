/**
 The PostgreSQL tables of the knowledge bases and the statements run on them, each one atomic.  A document row
 carries the version (fingerprint and embedding identity) it should be indexed at; the chunk rows below it were
 written by some ingest task.  Fingerprints, identities and chunking settings are only compared, so they are numbers.
 */
module KbStatements {
  import opened Prelude

  datatype DocStatus = Pending | Processed | Failed
  datatype Doc = Doc(kb: Id, hash: Id, identity: Id, status: DocStatus)

  datatype KbStatus = KbIndexing | KbActive
  datatype Kb = Kb(model: Id, chunking: Id, status: KbStatus)

  // An ingest task as it was queued, and the chunking configuration of the process that worked on it.
  datatype Task = Task(kb: Id, doc: Id, hash: Id, identity: Id, content: string)
  datatype Writer = Writer(task: Task, size: int, overlap: int)

  // `writer` is history: who wrote the row.
  datatype Row = Row(kb: Id, ordinal: nat, content: string, identity: Id, writer: Writer)

  // `chunks` holds the rows of each document; a document without an entry has none.
  datatype Db = Db(kbs: map<Id, Kb>, docs: map<Id, Doc>, chunks: map<Id, seq<Row>>)

  const EMPTY := Db(map[], map[], map[])

  function RowsOf(db: Db, doc: Id): seq<Row> {
    if doc in db.chunks then db.chunks[doc] else []
  }

  function CreateKb(db: Db, kb: Id, model: Id, chunking: Id): Db {
    if kb in db.kbs then db else db.(kbs := db.kbs[kb := Kb(model, chunking, KbActive)])
  }

  function SetChunking(db: Db, kb: Id, chunking: Id): Db {
    if kb in db.kbs then db.(kbs := db.kbs[kb := db.kbs[kb].(chunking := chunking)]) else db
  }

  // INSERT ... ON CONFLICT DO UPDATE, always to pending; a row in conflict keeps its knowledge base.
  function Upsert(db: Db, doc: Id, kb: Id, hash: Id, identity: Id): Db {
    if doc in db.docs then db.(docs := db.docs[doc := db.docs[doc].(hash := hash, identity := identity,
      status := Pending)])
    else if kb in db.kbs then db.(docs := db.docs[doc := Doc(kb, hash, identity, Pending)])
    else db
  }

  // BeginKBReindex runs the next two statements one after the other.
  function SetIndexing(db: Db, kb: Id, identity: Id): Db {
    if kb in db.kbs then db.(kbs := db.kbs[kb := db.kbs[kb].(model := identity, status := KbIndexing)]) else db
  }

  function MarkPending(db: Db, kb: Id, identity: Id): Db {
    db.(docs := map d | d in db.docs ::
      if db.docs[d].kb == kb then db.docs[d].(status := Pending, identity := identity) else db.docs[d])
  }

  function NotIn(rows: seq<Row>, kb: Id): seq<Row> {
    if rows == [] then [] else (if rows[0].kb == kb then [] else [rows[0]]) + NotIn(rows[1..], kb)
  }

  // RemoveDocument: DELETE FROM kb_chunks WHERE kb_id = $1 AND doc_id = $2.
  function RemoveChunks(db: Db, kb: Id, doc: Id): Db {
    db.(chunks := db.chunks[doc := NotIn(RowsOf(db, doc), kb)])
  }

  // The chunk rows go with the document row.
  function DeleteDocument(db: Db, doc: Id): Db {
    db.(docs := db.docs - {doc}, chunks := db.chunks - {doc})
  }

  // The document exists in this knowledge base, at this version, and waits to be indexed.
  predicate Current(db: Db, task: Task) {
    && task.doc in db.docs && db.docs[task.doc].kb == task.kb
    && db.docs[task.doc].hash == task.hash && db.docs[task.doc].identity == task.identity
    && db.docs[task.doc].status != Processed
  }

  function NewRows(w: Writer, texts: seq<string>): (rows: seq<Row>)
    ensures |rows| == |texts|
  {
    seq(|texts|, i requires 0 <= i < |texts| => Row(w.task.kb, i, texts[i], w.task.identity, w))
  }

  // One transaction: lock the document if current, replace its chunks, mark it processed.
  function IndexIfCurrent(db: Db, w: Writer, texts: seq<string>): (Db, bool) {
    if !Current(db, w.task) then (db, false)
    else
      (db.(docs := db.docs[w.task.doc := db.docs[w.task.doc].(status := Processed)],
           chunks := db.chunks[w.task.doc := NewRows(w, texts)]),
       true)
  }

  function MarkIfCurrent(db: Db, doc: Id, hash: Id, identity: Id, status: DocStatus): (Db, bool) {
    if doc in db.docs && db.docs[doc].hash == hash && db.docs[doc].identity == identity
      && db.docs[doc].status != Processed then
      (db.(docs := db.docs[doc := db.docs[doc].(status := status)]), true)
    else (db, false)
  }

  predicate AllIndexed(db: Db, kb: Id, identity: Id) {
    forall d :: d in db.docs && db.docs[d].kb == kb ==>
      db.docs[d].status == Processed && db.docs[d].identity == identity
  }

  function ActivateIfReady(db: Db, kb: Id, identity: Id): (Db, bool) {
    if kb in db.kbs && db.kbs[kb].model == identity && AllIndexed(db, kb, identity) then
      (db.(kbs := db.kbs[kb := db.kbs[kb].(status := KbActive)]), true)
    else (db, false)
  }

  // The joins and filters of Search, for a process that embeds with `identity`.
  predicate Visible(db: Db, kb: Id, doc: Id, row: Row, identity: Id) {
    && row in RowsOf(db, doc) && row.kb == kb
    && kb in db.kbs && db.kbs[kb].status == KbActive && db.kbs[kb].model == identity
    && doc in db.docs && db.docs[doc].status == Processed && db.docs[doc].identity == identity
    && row.identity == identity
  }
}
