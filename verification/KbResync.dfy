/**
 A sync that an error stopped, and the next one, with the listing it finds then.  Exactly when does it leave what it
 would have left had the stopped one never begun?  Both run with the same settings, and nothing runs in between.
 */
module KbResync {
  import opened Prelude
  import opened KbStatements
  import opened KbSync
  import IngestRuns

  // The next sync: of the same knowledge base, by a process with the same settings, but with its own listing.
  ghost predicate SameSettings(y: Sync, z: Sync) {
    z.kb == y.kb && z.identity == y.identity && z.chunking == y.chunking && z.fingerprint == y.fingerprint
  }

  // The same knowledge bases and documents, and the same rows under each of them.
  ghost predicate SameTables(a: Db, b: Db) {
    a.kbs == b.kbs && a.docs == b.docs && forall d: Id :: RowsOf(a, d) == RowsOf(b, d)
  }

  // No row without its document, as in all tables a run reaches.
  ghost predicate NoOrphans(db: Db) {
    forall d: Id :: d !in db.docs ==> RowsOf(db, d) == []
  }

  lemma {:induction false} ReachableHasNoOrphans(acts: seq<IngestRuns.Action>)
    ensures NoOrphans(IngestRuns.Run(IngestRuns.INIT, acts).db)
  {
    IngestRuns.RunKeepsInv(IngestRuns.INIT, acts);
  }

  ghost predicate Agree(a: Db, b: Db, d: Id) {
    (d in a.docs <==> d in b.docs) && (d in a.docs ==> a.docs[d] == b.docs[d]) && RowsOf(a, d) == RowsOf(b, d)
  }

  // ---- what a sync leaves, document by document ----

  // A document that is not listed is left as the reindexing left it, unless it is gone.
  lemma {:induction false} SyncedUnlisted(db: Db, y: Sync, doc: Id)
    requires y.kb in db.kbs && doc !in Listed(y.metas)
    ensures doc in Synced(db, y).docs <==> doc in db.docs && doc !in Gone(db, y)
    ensures doc in Synced(db, y).docs ==> Synced(db, y).docs[doc] == Reindexed(db, y).docs[doc]
  {
    SyncFirstElsewhere(Prepared(db, y), y, |y.metas|, doc);
  }

  lemma {:induction false} SyncedRows(db: Db, y: Sync, doc: Id)
    requires y.kb in db.kbs
    ensures RowsOf(Synced(db, y), doc) == if doc in Gone(db, y) then [] else RowsOf(db, doc)
  {
    SyncFirstKeepsChunks(Prepared(db, y), y, |y.metas|);
  }

  // The knowledge base is active if all its documents are indexed; otherwise a reindexing has taken it back.
  lemma {:induction false} SyncedBases(db: Db, y: Sync)
    requires y.kb in db.kbs
    ensures Synced(db, y).kbs == db.kbs[y.kb := Kb(y.identity, y.chunking,
      if AllIndexed(Synced(db, y), y.kb, y.identity) then KbActive
      else if Changed(db, y) then KbIndexing else db.kbs[y.kb].status)]
  {
    var last := SyncFirst(Prepared(db, y), y, |y.metas|);
    SyncFirstKeepsChunks(Prepared(db, y), y, |y.metas|);
    assert last.kbs == Reindexed(db, y).kbs;
    assert AllIndexed(Synced(db, y), y.kb, y.identity) <==> AllIndexed(last, y.kb, y.identity);
  }

  // ---- what a stopped sync leaves, document by document ----

  // The documents that are gone already.
  function Removed(db: Db, y: Sync, h: Halt): set<Id>
    requires y.kb in db.kbs && CanHalt(db, y, h)
  {
    match h
    case AtPrune(done) => done
    case AtDelete(done, _) => done
    case AtSource(_) => Gone(db, y)
    case _ => {}
  }

  // The first n sources have been taken care of, and this one was not skipped.
  predicate Stored(db: Db, y: Sync, h: Halt, i: nat)
    requires y.kb in db.kbs && CanHalt(db, y, h) && i < |y.metas|
  {
    h.AtSource? && i < h.n && !Skips(Reindexed(db, y), y, y.metas[i])
  }

  predicate StoredDoc(db: Db, y: Sync, h: Halt, d: Id)
    requires y.kb in db.kbs && CanHalt(db, y, h)
  {
    exists i :: 0 <= i < |y.metas| && Stored(db, y, h, i) && y.metas[i].doc == d
  }

  predicate Half(h: Halt, d: Id) {
    h.AtDelete? && h.doc == d
  }

  // Past the reindexing, if there was one.
  predicate PastMarking(h: Halt) {
    h.AtPrune? || h.AtDelete? || h.AtSource?
  }

  lemma {:induction false} HaltedHasKb(db: Db, y: Sync, h: Halt)
    requires y.kb in db.kbs && CanHalt(db, y, h)
    ensures y.kb in Halted(db, y, h).kbs
    ensures PastMarking(h) ==> Halted(db, y, h).kbs == Reindexed(db, y).kbs && !Changed(Halted(db, y, h), y)
  {
    if h.AtSource? {
      SyncFirstKeepsChunks(Prepared(db, y), y, h.n);
    }
  }

  lemma {:induction false} HaltedAtRemoved(db: Db, y: Sync, h: Halt, d: Id)
    requires y.kb in db.kbs && CanHalt(db, y, h) && d in Removed(db, y, h)
    ensures d in Gone(db, y) && d !in Halted(db, y, h).docs && RowsOf(Halted(db, y, h), d) == []
  {
    if h.AtSource? {
      SyncFirstElsewhere(Prepared(db, y), y, h.n, d);
      SyncFirstKeepsChunks(Prepared(db, y), y, h.n);
    }
  }

  lemma {:induction false} HaltedAtHalf(db: Db, y: Sync, h: Halt)
    requires y.kb in db.kbs && CanHalt(db, y, h) && h.AtDelete?
    ensures h.doc in Halted(db, y, h).docs && Halted(db, y, h).docs[h.doc] == Reindexed(db, y).docs[h.doc]
    ensures RowsOf(Halted(db, y, h), h.doc) == NotIn(RowsOf(db, h.doc), y.kb)
  {
  }

  lemma {:induction false} HaltedAtStored(db: Db, y: Sync, h: Halt, i: nat)
    requires y.kb in db.kbs && WellListed(db, y) && CanHalt(db, y, h) && i < |y.metas| && Stored(db, y, h, i)
    ensures
      var m, halted := y.metas[i], Halted(db, y, h);
      && m.doc in halted.docs && halted.docs[m.doc] == Doc(y.kb, y.fingerprint(y.identity, m.hash), y.identity, Pending)
      && RowsOf(halted, m.doc) == RowsOf(db, m.doc)
  {
    var m := y.metas[i];
    assert m in y.metas;
    assert m.doc in Listed(y.metas) && m.doc !in Gone(db, y);
    SyncFirstAt(Prepared(db, y), y, h.n, i);
  }

  lemma {:induction false} HaltedElsewhere(db: Db, y: Sync, h: Halt, d: Id)
    requires y.kb in db.kbs && WellListed(db, y) && CanHalt(db, y, h) && PastMarking(h)
    requires d !in Removed(db, y, h) && !StoredDoc(db, y, h, d) && !Half(h, d)
    ensures d in Halted(db, y, h).docs <==> d in db.docs
    ensures d in db.docs ==> Halted(db, y, h).docs[d] == Reindexed(db, y).docs[d]
    ensures RowsOf(Halted(db, y, h), d) == RowsOf(db, d)
  {
    if h.AtSource? {
      SyncFirstKeepsChunks(Prepared(db, y), y, h.n);
      if d in Listed(y.metas) {
        var i :| 0 <= i < |y.metas| && y.metas[i].doc == d;
        assert d !in Gone(db, y);
        SyncFirstAt(Prepared(db, y), y, h.n, i);
      } else {
        SyncFirstElsewhere(Prepared(db, y), y, h.n, d);
      }
    }
  }

  // The listing of the next sync is as good for the tables of the stopped one.
  lemma {:induction false} HaltedIsWellListed(db: Db, y: Sync, h: Halt, z: Sync)
    requires y.kb in db.kbs && WellListed(db, y) && WellListed(db, z) && CanHalt(db, y, h) && SameSettings(y, z)
    ensures WellListed(Halted(db, y, h), z)
  {
    forall j | 0 <= j < |z.metas| && z.metas[j].doc in Halted(db, y, h).docs
      ensures Halted(db, y, h).docs[z.metas[j].doc].kb == z.kb
    {
      var d := z.metas[j].doc;
      if PastMarking(h) {
        if d in Removed(db, y, h) {
          HaltedAtRemoved(db, y, h, d);
        } else if Half(h, d) {
          HaltedAtHalf(db, y, h);
        } else if StoredDoc(db, y, h, d) {
          var i :| 0 <= i < |y.metas| && Stored(db, y, h, i) && y.metas[i].doc == d;
          HaltedAtStored(db, y, h, i);
        } else {
          HaltedElsewhere(db, y, h, d);
        }
      }
    }
  }

  // ---- where the two end alike ----

  // What the next sync, z, leaves after the stopped one, and what it would have left without it.
  ghost predicate EndAlike(db: Db, y: Sync, h: Halt, z: Sync, d: Id)
    requires y.kb in db.kbs && CanHalt(db, y, h) && SameSettings(y, z) && y.kb in Halted(db, y, h).kbs
  {
    Agree(Synced(Halted(db, y, h), z), Synced(db, z), d)
  }

  // The settings of a sync past its reindexing; what both lemmas below need.
  ghost predicate Compared(db: Db, y: Sync, h: Halt, z: Sync) {
    && y.kb in db.kbs && WellListed(db, y) && WellListed(db, z) && CanHalt(db, y, h) && PastMarking(h)
    && SameSettings(y, z) && y.kb in Halted(db, y, h).kbs && WellListed(Halted(db, y, h), z) && NoOrphans(db)
    && Halted(db, y, h).kbs == Reindexed(db, y).kbs && !Changed(Halted(db, y, h), z)
  }

  // No listed source of z is taken to be indexed in this document.
  predicate NotSkipped(db: Db, z: Sync, d: Id)
    requires z.kb in db.kbs
  {
    forall j :: 0 <= j < |z.metas| && z.metas[j].doc == d ==> !Skips(Reindexed(db, z), z, z.metas[j])
  }

  // A document that was pruned: its source has still vanished, or it had no rows and is stored anew anyway.
  predicate RemovedHarmless(db: Db, z: Sync, d: Id)
    requires z.kb in db.kbs
  {
    d in Gone(db, z) || (d in Listed(z.metas) && NotSkipped(db, z, d) && RowsOf(db, d) == [])
  }

  // A document without its rows: it goes now, or it had none of this knowledge base.
  predicate HalfHarmless(db: Db, z: Sync, d: Id) {
    d in Gone(db, z) || NotIn(RowsOf(db, d), z.kb) == RowsOf(db, d)
  }

  // A document that was stored: it is stored anew anyway, or goes now, or waited at just this version before.
  predicate StoredHarmless(db: Db, y: Sync, z: Sync, i: nat)
    requires z.kb in db.kbs && i < |y.metas|
  {
    var m := y.metas[i];
    if m.doc in Listed(z.metas) then NotSkipped(db, z, m.doc)
    else (z.complete && m.doc in z.owned)
         || (m.doc in db.docs
             && Reindexed(db, z).docs[m.doc] == Doc(z.kb, z.fingerprint(z.identity, m.hash), z.identity, Pending))
  }

  lemma {:induction false} RemovedEndsAlike(db: Db, y: Sync, h: Halt, z: Sync, d: Id)
    requires Compared(db, y, h, z) && d in Removed(db, y, h)
    ensures EndAlike(db, y, h, z, d) <==> RemovedHarmless(db, z, d)
  {
    var halted := Halted(db, y, h);
    HaltedAtRemoved(db, y, h, d);
    SyncedRows(halted, z, d);
    SyncedRows(db, z, d);
    if d in Listed(z.metas) {
      var j :| 0 <= j < |z.metas| && z.metas[j].doc == d;
      SyncedIsCurrent(halted, z, j);
      SyncedIsCurrent(db, z, j);
    } else {
      SyncedUnlisted(halted, z, d);
      SyncedUnlisted(db, z, d);
    }
  }

  // A document the stopped sync left alone, but for its rows.
  lemma {:induction false} KeptEndsAlike(db: Db, y: Sync, h: Halt, z: Sync, d: Id)
    requires Compared(db, y, h, z)
    requires d in Halted(db, y, h).docs <==> d in db.docs
    requires d in db.docs ==> Halted(db, y, h).docs[d] == Reindexed(db, y).docs[d]
    ensures EndAlike(db, y, h, z, d) <==> d in Gone(db, z) || RowsOf(Halted(db, y, h), d) == RowsOf(db, d)
  {
    var halted := Halted(db, y, h);
    SyncedRows(halted, z, d);
    SyncedRows(db, z, d);
    if d in Listed(z.metas) {
      var j :| 0 <= j < |z.metas| && z.metas[j].doc == d;
      SyncedIsCurrent(halted, z, j);
      SyncedIsCurrent(db, z, j);
    } else {
      SyncedUnlisted(halted, z, d);
      SyncedUnlisted(db, z, d);
    }
  }

  lemma {:induction false} StoredEndsAlike(db: Db, y: Sync, h: Halt, z: Sync, i: nat)
    requires Compared(db, y, h, z) && i < |y.metas| && Stored(db, y, h, i)
    ensures EndAlike(db, y, h, z, y.metas[i].doc) <==> StoredHarmless(db, y, z, i)
  {
    var halted, d := Halted(db, y, h), y.metas[i].doc;
    HaltedAtStored(db, y, h, i);
    SyncedRows(halted, z, d);
    SyncedRows(db, z, d);
    if d in Listed(z.metas) {
      var j :| 0 <= j < |z.metas| && z.metas[j].doc == d;
      SyncedIsCurrent(halted, z, j);
      SyncedIsCurrent(db, z, j);
    } else {
      SyncedUnlisted(halted, z, d);
      SyncedUnlisted(db, z, d);
    }
  }

  // Past the reindexing: everything the stopped sync did is harmless to what comes next.
  predicate PastHarmless(db: Db, y: Sync, h: Halt, z: Sync)
    requires y.kb in db.kbs && CanHalt(db, y, h) && SameSettings(y, z)
  {
    && (forall d :: d in Removed(db, y, h) ==> RemovedHarmless(db, z, d))
    && (h.AtDelete? ==> HalfHarmless(db, z, h.doc))
    && (forall i :: 0 <= i < |y.metas| && Stored(db, y, h, i) ==> StoredHarmless(db, y, z, i))
  }

  lemma {:induction false} DocEndsAlike(db: Db, y: Sync, h: Halt, z: Sync, d: Id)
    requires Compared(db, y, h, z) && PastHarmless(db, y, h, z)
    ensures EndAlike(db, y, h, z, d)
  {
    if d in Removed(db, y, h) {
      RemovedEndsAlike(db, y, h, z, d);
    } else if Half(h, d) {
      HaltedAtHalf(db, y, h);
      KeptEndsAlike(db, y, h, z, d);
    } else if StoredDoc(db, y, h, d) {
      var i :| 0 <= i < |y.metas| && Stored(db, y, h, i) && y.metas[i].doc == d;
      StoredEndsAlike(db, y, h, z, i);
    } else {
      HaltedElsewhere(db, y, h, d);
      KeptEndsAlike(db, y, h, z, d);
    }
  }

  // Conversely, where the two end alike, none of it did harm.
  lemma {:induction false} AlikeIsHarmless(db: Db, y: Sync, h: Halt, z: Sync)
    requires Compared(db, y, h, z) && forall d: Id :: EndAlike(db, y, h, z, d)
    ensures PastHarmless(db, y, h, z)
  {
    forall d | d in Removed(db, y, h)
      ensures RemovedHarmless(db, z, d)
    {
      RemovedEndsAlike(db, y, h, z, d);
      assert EndAlike(db, y, h, z, d);
    }
    if h.AtDelete? {
      HaltedAtHalf(db, y, h);
      KeptEndsAlike(db, y, h, z, h.doc);
      assert EndAlike(db, y, h, z, h.doc);
    }
    forall i | 0 <= i < |y.metas| && Stored(db, y, h, i)
      ensures StoredHarmless(db, y, z, i)
    {
      StoredEndsAlike(db, y, h, z, i);
      assert EndAlike(db, y, h, z, y.metas[i].doc);
    }
  }

  // Alike in every document, the tables are alike.
  lemma {:induction false} AlikeTables(db: Db, y: Sync, h: Halt, z: Sync)
    requires Compared(db, y, h, z)
    ensures SameTables(Synced(Halted(db, y, h), z), Synced(db, z)) <==> forall d: Id :: EndAlike(db, y, h, z, d)
  {
    var again, once := Synced(Halted(db, y, h), z), Synced(db, z);
    if forall d: Id :: EndAlike(db, y, h, z, d) {
      forall d: Id
        ensures d in again.docs <==> d in once.docs
        ensures d in again.docs ==> again.docs[d] == once.docs[d]
        ensures RowsOf(again, d) == RowsOf(once, d)
      {
        assert EndAlike(db, y, h, z, d);
      }
      assert again.docs == once.docs;
      SyncedBases(Halted(db, y, h), z);
      SyncedBases(db, z);
    }
  }

  lemma {:induction false} PastRecoversIff(db: Db, y: Sync, h: Halt, z: Sync)
    requires y.kb in db.kbs && WellListed(db, y) && WellListed(db, z) && CanHalt(db, y, h) && PastMarking(h)
    requires SameSettings(y, z) && NoOrphans(db)
    ensures y.kb in Halted(db, y, h).kbs
    ensures SameTables(Synced(Halted(db, y, h), z), Synced(db, z)) <==> PastHarmless(db, y, h, z)
  {
    HaltedHasKb(db, y, h);
    HaltedIsWellListed(db, y, h, z);
    AlikeTables(db, y, h, z);
    if PastHarmless(db, y, h, z) {
      forall d: Id
        ensures EndAlike(db, y, h, z, d)
      {
        DocEndsAlike(db, y, h, z, d);
      }
    } else if forall d: Id :: EndAlike(db, y, h, z, d) {
      AlikeIsHarmless(db, y, h, z);
    }
  }

  // ---- what is forgotten ----

  // The settings are stored, but not every document has been told to wait.
  predicate Forgets(db: Db, y: Sync, h: Halt)
    requires y.kb in db.kbs && CanHalt(db, y, h)
  {
    h.AtMarking? || (h.AtIndexing? && db.kbs[y.kb].model == y.identity)
  }

  predicate Waits(d: Doc, z: Sync) {
    d.status == Pending && d.identity == z.identity
  }

  // No listed source is taken to be indexed, and every other document that stays waits at the new identity.
  predicate NoDocForgotten(db: Db, z: Sync)
    requires z.kb in db.kbs
  {
    && (forall j :: 0 <= j < |z.metas| ==> !Skips(db, z, z.metas[j]))
    && (forall d :: d in db.docs && db.docs[d].kb == z.kb && d !in Gone(db, z) && d !in Listed(z.metas) ==>
          Waits(db.docs[d], z))
  }

  // No document of the knowledge base is left when the sync ends.
  predicate NoneLeft(db: Db, z: Sync)
    requires z.kb in db.kbs
  {
    z.metas == [] && forall d :: d in db.docs && db.docs[d].kb == z.kb ==> d in Gone(db, z)
  }

  // The next sync finds nothing changed, and the documents and rows there were.
  lemma {:induction false} ForgottenIsUnchanged(db: Db, y: Sync, h: Halt, z: Sync)
    requires y.kb in db.kbs && CanHalt(db, y, h) && Forgets(db, y, h) && SameSettings(y, z)
    ensures y.kb in Halted(db, y, h).kbs && Halted(db, y, h).docs == db.docs && Halted(db, y, h).chunks == db.chunks
    ensures Reindexed(Halted(db, y, h), z) == Halted(db, y, h) && Gone(Halted(db, y, h), z) == Gone(db, z)
  {
  }

  lemma {:induction false} ForgottenAtListed(db: Db, y: Sync, h: Halt, z: Sync, j: nat)
    requires y.kb in db.kbs && WellListed(db, z) && CanHalt(db, y, h) && Forgets(db, y, h) && SameSettings(y, z)
    requires j < |z.metas| && y.kb in Halted(db, y, h).kbs
    ensures EndAlike(db, y, h, z, z.metas[j].doc) <==> !Skips(db, z, z.metas[j])
  {
    var halted, d := Halted(db, y, h), z.metas[j].doc;
    ForgottenIsUnchanged(db, y, h, z);
    SyncedIsCurrent(db, z, j);
    SyncedIsCurrent(halted, z, j);
    SyncedRows(db, z, d);
    SyncedRows(halted, z, d);
  }

  lemma {:induction false} ForgottenAtUnlisted(db: Db, y: Sync, h: Halt, z: Sync, d: Id)
    requires y.kb in db.kbs && CanHalt(db, y, h) && Forgets(db, y, h) && SameSettings(y, z)
    requires d !in Listed(z.metas) && y.kb in Halted(db, y, h).kbs
    ensures EndAlike(db, y, h, z, d)
       <==> d !in db.docs || db.docs[d].kb != z.kb || d in Gone(db, z) || Waits(db.docs[d], z)
  {
    var halted := Halted(db, y, h);
    ForgottenIsUnchanged(db, y, h, z);
    SyncedUnlisted(db, z, d);
    SyncedUnlisted(halted, z, d);
    SyncedRows(db, z, d);
    SyncedRows(halted, z, d);
  }

  lemma {:induction false} ForgottenAlikeIff(db: Db, y: Sync, h: Halt, z: Sync)
    requires y.kb in db.kbs && WellListed(db, z) && CanHalt(db, y, h) && Forgets(db, y, h) && SameSettings(y, z)
    requires y.kb in Halted(db, y, h).kbs
    ensures (forall d: Id :: EndAlike(db, y, h, z, d)) <==> NoDocForgotten(db, z)
  {
    if NoDocForgotten(db, z) {
      forall d: Id
        ensures EndAlike(db, y, h, z, d)
      {
        if d in Listed(z.metas) {
          var j :| 0 <= j < |z.metas| && z.metas[j].doc == d;
          ForgottenAtListed(db, y, h, z, j);
        } else {
          ForgottenAtUnlisted(db, y, h, z, d);
        }
      }
    } else if j :| 0 <= j < |z.metas| && Skips(db, z, z.metas[j]) {
      ForgottenAtListed(db, y, h, z, j);
      assert !EndAlike(db, y, h, z, z.metas[j].doc);
    } else {
      var d :| d in db.docs && db.docs[d].kb == z.kb && d !in Gone(db, z) && d !in Listed(z.metas)
        && !Waits(db.docs[d], z);
      ForgottenAtUnlisted(db, y, h, z, d);
      assert !EndAlike(db, y, h, z, d);
    }
  }

  lemma {:induction false} NoneLeftIff(db: Db, z: Sync)
    requires z.kb in db.kbs && WellListed(db, z)
    ensures NoneLeft(db, z) <==> forall d :: d in Synced(db, z).docs ==> Synced(db, z).docs[d].kb != z.kb
  {
    if z.metas != [] {
      SyncedIsCurrent(db, z, 0);
    } else {
      forall d: Id
        ensures d in Synced(db, z).docs <==> d in db.docs && d !in Gone(db, z)
        ensures d in Synced(db, z).docs ==> Synced(db, z).docs[d].kb == db.docs[d].kb
      {
        SyncedUnlisted(db, z, d);
      }
    }
  }

  // After a reindexing the knowledge base is activated at once only if it has no document.
  lemma {:induction false} ActiveIffNoneLeft(db: Db, z: Sync)
    requires z.kb in db.kbs && WellListed(db, z) && Changed(db, z)
    ensures AllIndexed(Synced(db, z), z.kb, z.identity) <==> NoneLeft(db, z)
  {
    NoneLeftIff(db, z);
    forall d | d in Synced(db, z).docs && Synced(db, z).docs[d].kb == z.kb
      ensures Synced(db, z).docs[d].status == Pending
    {
      ChangedSettingsStartOver(db, z, d);
    }
  }

  // With the documents alike, the knowledge bases are, unless one was active and its documents now wait.
  lemma {:induction false} ForgottenBasesIff(db: Db, y: Sync, h: Halt, z: Sync)
    requires y.kb in db.kbs && WellListed(db, z) && CanHalt(db, y, h) && Forgets(db, y, h) && SameSettings(y, z)
    requires y.kb in Halted(db, y, h).kbs && Synced(Halted(db, y, h), z).docs == Synced(db, z).docs
    ensures Synced(Halted(db, y, h), z).kbs == Synced(db, z).kbs
       <==> h.AtMarking? || db.kbs[y.kb].status == KbIndexing || NoneLeft(db, z)
  {
    var halted := Halted(db, y, h);
    ActiveIffNoneLeft(db, z);
    SyncedBases(db, z);
    SyncedBases(halted, z);
    assert AllIndexed(Synced(halted, z), z.kb, z.identity) <==> NoneLeft(db, z);
    assert Synced(db, z).kbs[y.kb] == Kb(z.identity, z.chunking, if NoneLeft(db, z) then KbActive else KbIndexing);
  }

  predicate ForgottenHarmless(db: Db, h: Halt, z: Sync)
    requires z.kb in db.kbs
  {
    NoDocForgotten(db, z) && (h.AtMarking? || db.kbs[z.kb].status == KbIndexing || NoneLeft(db, z))
  }

  lemma {:induction false} ForgottenRecoversIff(db: Db, y: Sync, h: Halt, z: Sync)
    requires y.kb in db.kbs && WellListed(db, z) && CanHalt(db, y, h) && Forgets(db, y, h) && SameSettings(y, z)
    ensures y.kb in Halted(db, y, h).kbs
    ensures SameTables(Synced(Halted(db, y, h), z), Synced(db, z)) <==> ForgottenHarmless(db, h, z)
  {
    var again, once := Synced(Halted(db, y, h), z), Synced(db, z);
    ForgottenAlikeIff(db, y, h, z);
    if NoDocForgotten(db, z) {
      forall d: Id
        ensures d in again.docs <==> d in once.docs
        ensures d in again.docs ==> again.docs[d] == once.docs[d]
        ensures RowsOf(again, d) == RowsOf(once, d)
      {
        assert EndAlike(db, y, h, z, d);
      }
      assert again.docs == once.docs;
      ForgottenBasesIff(db, y, h, z);
    } else {
      assert exists d: Id :: !EndAlike(db, y, h, z, d);
    }
  }

  // ---- the theorems ----

  // What the stopped sync did is made up for by the next one.
  predicate Recovers(db: Db, y: Sync, h: Halt, z: Sync)
    requires y.kb in db.kbs && CanHalt(db, y, h) && SameSettings(y, z)
  {
    if Forgets(db, y, h) then ForgottenHarmless(db, h, z) else PastHarmless(db, y, h, z)
  }

  /**
   A sync that stopped, followed by one with its own listing, leaves what that one alone would have left, exactly if
   - stopped inside the reindexing with the settings stored: no document should have waited, and the knowledge base
     was not left active;
   - stopped later: each document it pruned has still no source, or had no rows and is stored anew; the one it left
     without rows goes now, or had none; each one it stored is stored anew, or goes, or waited at that version before.
   */
  lemma {:induction false} RerunCompletesIff(db: Db, y: Sync, h: Halt, z: Sync)
    requires y.kb in db.kbs && WellListed(db, y) && WellListed(db, z) && CanHalt(db, y, h)
    requires SameSettings(y, z) && NoOrphans(db)
    ensures y.kb in Halted(db, y, h).kbs
    ensures SameTables(Synced(Halted(db, y, h), z), Synced(db, z)) <==> Recovers(db, y, h, z)
  {
    HaltedHasKb(db, y, h);
    if Forgets(db, y, h) {
      ForgottenRecoversIff(db, y, h, z);
    } else if PastMarking(h) {
      PastRecoversIff(db, y, h, z);
    } else if h.AtIndexing? {
      assert Configured(Configured(db, y), z) == Configured(db, y);
      assert Gone(Configured(db, y), z) == Gone(db, z);
    }
  }

  /** If nothing changed at the source in between, the next sync makes up for every stop past the reindexing. */
  lemma {:induction false} SameListingRecovers(db: Db, y: Sync, h: Halt)
    requires y.kb in db.kbs && WellListed(db, y) && CanHalt(db, y, h) && !Forgets(db, y, h) && NoOrphans(db)
    ensures y.kb in Halted(db, y, h).kbs && SameTables(Synced(Halted(db, y, h), y), Synced(db, y))
  {
    forall i | 0 <= i < |y.metas| && Stored(db, y, h, i)
      ensures StoredHarmless(db, y, y, i)
    {
      assert y.metas[i] in y.metas;
      assert y.metas[i].doc in Listed(y.metas);
    }
    RerunCompletesIff(db, y, h, y);
  }

  /**
   Rows may be lost for good: a sync removed the rows of a document whose source was not listed, and stopped before
   it deleted the document.  If the next listing has the source again, unchanged, the document is skipped: it stays
   processed, without a row, while that sync alone would have kept them all.
   */
  lemma {:induction false} SkippedWithoutRows(db: Db, y: Sync, z: Sync, j: nat)
    requires y.kb in db.kbs && WellListed(db, z) && SameSettings(y, z) && !Changed(db, y) && j < |z.metas|
    requires z.metas[j].doc in Gone(db, y) && Skips(db, z, z.metas[j])
    requires NotIn(RowsOf(db, z.metas[j].doc), y.kb) == []
    ensures
      var d, h := z.metas[j].doc, AtDelete({}, z.metas[j].doc);
      && CanHalt(db, y, h) && y.kb in Halted(db, y, h).kbs
      && var again, once := Synced(Halted(db, y, h), z), Synced(db, z);
         && d in again.docs && again.docs[d].status == Processed && RowsOf(again, d) == []
         && d in once.docs && once.docs[d] == again.docs[d] && RowsOf(once, d) == RowsOf(db, d)
  {
    var d, h := z.metas[j].doc, AtDelete({}, z.metas[j].doc);
    var halted := Halted(db, y, h);
    assert d in Listed(z.metas) by {
      assert z.metas[j] in z.metas;
    }
    HaltedAtHalf(db, y, h);
    SyncedRows(halted, z, d);
    SyncedRows(db, z, d);
    SyncedIsCurrent(halted, z, j);
    SyncedIsCurrent(db, z, j);
  }

  /** And it may be served so: if all documents were indexed and are skipped, the knowledge base is active over it. */
  lemma {:induction false} ServedWithoutRows(db: Db, y: Sync, z: Sync, j: nat)
    requires y.kb in db.kbs && WellListed(db, z) && SameSettings(y, z) && !Changed(db, y) && j < |z.metas|
    requires z.metas[j].doc in Gone(db, y) && NotIn(RowsOf(db, z.metas[j].doc), y.kb) == []
    requires AllIndexed(db, y.kb, y.identity) && Gone(db, z) == {}
    requires forall i :: 0 <= i < |z.metas| ==> Skips(db, z, z.metas[i])
    ensures
      var d, h := z.metas[j].doc, AtDelete({}, z.metas[j].doc);
      && CanHalt(db, y, h) && y.kb in Halted(db, y, h).kbs
      && var again := Synced(Halted(db, y, h), z);
         && y.kb in again.kbs && again.kbs[y.kb].status == KbActive
         && d in again.docs && again.docs[d].status == Processed && RowsOf(again, d) == []
  {
    var d, h := z.metas[j].doc, AtDelete({}, z.metas[j].doc);
    var halted := Halted(db, y, h);
    SkippedWithoutRows(db, y, z, j);
    assert Gone(halted, z) == {};
    assert Prepared(halted, z) == halted;
    AllSkipped(halted, z, |z.metas|);
    assert AllIndexed(halted, z.kb, z.identity);
  }

  /**
   What is forgotten can be served: if only the chunking changed and every document was indexed, the sync that
   follows activates the knowledge base over the chunks of the old chunking.
   */
  lemma {:induction false} OldChunksAreServed(db: Db, y: Sync)
    requires y.kb in db.kbs && WellListed(db, y)
    requires db.kbs[y.kb].model == y.identity && db.kbs[y.kb].chunking != y.chunking
    requires AllIndexed(db, y.kb, y.identity) && Gone(db, y) == {}
    requires forall i :: 0 <= i < |y.metas| ==> Skips(db, y, y.metas[i])
    ensures CanHalt(db, y, AtMarking) && y.kb in Halted(db, y, AtMarking).kbs
    ensures Synced(Halted(db, y, AtMarking), y) == db.(kbs := db.kbs[y.kb := Kb(y.identity, y.chunking, KbActive)])
  {
    var halted := Halted(db, y, AtMarking);
    ForgottenIsUnchanged(db, y, AtMarking, y);
    assert Prepared(halted, y) == halted;
    AllSkipped(halted, y, |y.metas|);
  }

  lemma {:induction false} AllSkipped(db: Db, y: Sync, n: nat)
    requires n <= |y.metas| && forall i :: 0 <= i < |y.metas| ==> Skips(db, y, y.metas[i])
    ensures SyncFirst(db, y, n) == db
  {
    if n > 0 {
      AllSkipped(db, y, n - 1);
    }
  }
}
