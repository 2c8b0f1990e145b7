/**
 The in-process keyword index of one knowledge base.  Index and RemoveDocument update the chunk list, the
 document frequencies and the total length in place; whatever was called before, all three are what an index
 built from scratch out of each document's last indexed chunks would hold.
 */
module KeywordIndex {
  import opened Prelude

  type Term = string
  type Tokenizer = string -> seq<Term>

  datatype Chunk = Chunk(id: Id, docId: Id, content: string)
  datatype IndexedChunk = IndexedChunk(chunk: Chunk, terms: map<Term, nat>, len: nat)
  datatype Index = Index(chunks: seq<IndexedChunk>, df: map<Term, int>, totalLen: int)

  // ---- term frequencies ----

  function Get(m: map<Term, int>, t: Term): int {
    if t in m then m[t] else 0
  }

  function TermFreq(tokens: seq<Term>): (tf: map<Term, nat>)
    ensures forall t :: t in tf ==> t in tokens && tf[t] > 0
    ensures forall t :: t in tokens ==> t in tf
  {
    if tokens == [] then map[]
    else
      var front, t := TermFreq(tokens[..|tokens| - 1]), tokens[|tokens| - 1];
      front[t := (if t in front then front[t] else 0) + 1]
  }

  /** A term's frequency is the number of its occurrences. */
  lemma {:induction false} FrequencyIsOccurrences(tokens: seq<Term>, t: Term)
    ensures multiset(tokens)[t] == if t in TermFreq(tokens) then TermFreq(tokens)[t] else 0
  {
    if tokens != [] {
      FrequencyIsOccurrences(tokens[..|tokens| - 1], t);
      assert tokens == tokens[..|tokens| - 1] + [tokens[|tokens| - 1]];
    }
  }

  // The sum of a term map's counts, in whatever order they are added up.
  ghost function Total(tf: map<Term, nat>, terms: set<Term>): nat
    requires terms <= tf.Keys
  {
    if terms == {} then 0
    else
      var t :| t in terms;
      tf[t] + Total(tf, terms - {t})
  }

  lemma {:induction false} TotalRemove(tf: map<Term, nat>, terms: set<Term>, t: Term)
    requires t in terms && terms <= tf.Keys
    ensures Total(tf, terms) == tf[t] + Total(tf, terms - {t})
    decreases terms
  {
    var u :| u in terms && Total(tf, terms) == tf[u] + Total(tf, terms - {u});
    if u != t {
      TotalRemove(tf, terms - {u}, t);
      TotalRemove(tf, terms - {t}, u);
      assert terms - {u} - {t} == terms - {t} - {u};
    }
  }

  lemma {:induction false} TotalSame(tf: map<Term, nat>, tf': map<Term, nat>, terms: set<Term>)
    requires terms <= tf.Keys && terms <= tf'.Keys && forall t :: t in terms ==> tf[t] == tf'[t]
    ensures Total(tf, terms) == Total(tf', terms)
    decreases terms
  {
    if terms != {} {
      var t :| t in terms && Total(tf, terms) == tf[t] + Total(tf, terms - {t});
      TotalSame(tf, tf', terms - {t});
      TotalRemove(tf', terms, t);
    }
  }

  /** The length of a chunk is the number of its tokens. */
  lemma {:induction false} TotalIsTokenCount(tokens: seq<Term>)
    ensures Total(TermFreq(tokens), TermFreq(tokens).Keys) == |tokens|
  {
    var tf := TermFreq(tokens);
    if tokens != [] {
      var front, t := TermFreq(tokens[..|tokens| - 1]), tokens[|tokens| - 1];
      TotalIsTokenCount(tokens[..|tokens| - 1]);
      TotalRemove(tf, tf.Keys, t);
      TotalSame(tf, front, tf.Keys - {t});
      if t in front {
        TotalRemove(front, front.Keys, t);
        assert tf.Keys == front.Keys;
      } else {
        assert tf.Keys - {t} == front.Keys;
      }
    }
  }

  method CountTerms(tokens: seq<Term>) returns (tf: map<Term, nat>)
    ensures tf == TermFreq(tokens)
  {
    tf := map[];
    for i := 0 to |tokens|
      invariant tf == TermFreq(tokens[..i])
    {
      assert tokens[..i + 1][..i] == tokens[..i];
      tf := tf[tokens[i] := (if tokens[i] in tf then tf[tokens[i]] else 0) + 1];
    }
    assert tokens[..|tokens|] == tokens;
  }

  method TokenCount(tf: map<Term, nat>) returns (n: nat)
    ensures n == Total(tf, tf.Keys)
  {
    n := 0;
    var todo := tf.Keys;
    while todo != {}
      invariant todo <= tf.Keys && n + Total(tf, todo) == Total(tf, tf.Keys)
      decreases |todo|
    {
      var t :| t in todo;
      TotalRemove(tf, todo, t);
      n := n + tf[t];
      todo := todo - {t};
    }
  }

  // ---- what the index counts ----

  function Indexed(tokenize: Tokenizer, c: Chunk): IndexedChunk {
    IndexedChunk(c, TermFreq(tokenize(c.content)), |tokenize(c.content)|)
  }

  // How many of the first n chunks contain the term.
  function Having(cs: seq<IndexedChunk>, n: nat, t: Term): nat
    requires n <= |cs|
  {
    if n == 0 then 0 else Having(cs, n - 1, t) + (if t in cs[n - 1].terms then 1 else 0)
  }

  function Lengths(cs: seq<IndexedChunk>, n: nat): nat
    requires n <= |cs|
  {
    if n == 0 then 0 else Lengths(cs, n - 1) + cs[n - 1].len
  }

  // A frequency map holds exactly the terms counted, each with its count.
  predicate Counts(df: map<Term, int>, t: Term, n: nat) {
    if n == 0 then t !in df else t in df && df[t] == n
  }

  // The index built from scratch out of these chunks.
  ghost predicate BuiltFrom(tokenize: Tokenizer, idx: Index, cs: seq<Chunk>) {
    && |idx.chunks| == |cs| && (forall i :: 0 <= i < |cs| ==> idx.chunks[i] == Indexed(tokenize, cs[i]))
    && idx.totalLen == Lengths(idx.chunks, |idx.chunks|)
    && forall t :: Counts(idx.df, t, Having(idx.chunks, |idx.chunks|, t))
  }

  /** Nothing of the index's history is left in it: the chunks it holds determine all three of its parts. */
  lemma {:induction false} BuiltFromIsUnique(tokenize: Tokenizer, a: Index, b: Index, cs: seq<Chunk>)
    requires BuiltFrom(tokenize, a, cs) && BuiltFrom(tokenize, b, cs)
    ensures a == b
  {
    assert a.chunks == b.chunks;
    forall t: Term
      ensures t in a.df <==> t in b.df
      ensures t in a.df ==> a.df[t] == b.df[t]
    {
      assert Counts(a.df, t, Having(a.chunks, |a.chunks|, t)) && Counts(b.df, t, Having(b.chunks, |b.chunks|, t));
    }
  }

  // ---- what the calls do to the chunks ----

  function Without(cs: seq<Chunk>, docs: set<Id>): seq<Chunk> {
    if cs == [] then []
    else Without(cs[..|cs| - 1], docs) + (if cs[|cs| - 1].docId in docs then [] else [cs[|cs| - 1]])
  }

  function DocsOf(batch: seq<Chunk>): set<Id> {
    set c | c in batch :: c.docId
  }

  datatype Op = Put(batch: seq<Chunk>) | Remove(doc: Id)

  function Apply(cs: seq<Chunk>, op: Op): seq<Chunk> {
    match op
    case Put(batch) => Without(cs, DocsOf(batch)) + batch
    case Remove(doc) => Without(cs, {doc})
  }

  function ApplyAll(ops: seq<Op>): seq<Chunk> {
    if ops == [] then [] else Apply(ApplyAll(ops[..|ops| - 1]), ops[|ops| - 1])
  }

  function OfDoc(cs: seq<Chunk>, doc: Id): seq<Chunk> {
    if cs == [] then []
    else OfDoc(cs[..|cs| - 1], doc) + (if cs[|cs| - 1].docId == doc then [cs[|cs| - 1]] else [])
  }

  // What was last indexed for a document, and not removed since.
  function LastIndexed(ops: seq<Op>, doc: Id): seq<Chunk> {
    if ops == [] then []
    else
      var last := ops[|ops| - 1];
      if last.Remove? && last.doc == doc then []
      else if last.Put? && doc in DocsOf(last.batch) then OfDoc(last.batch, doc)
      else LastIndexed(ops[..|ops| - 1], doc)
  }

  lemma {:induction false} OfDocWithout(cs: seq<Chunk>, docs: set<Id>, doc: Id)
    ensures OfDoc(Without(cs, docs), doc) == if doc in docs then [] else OfDoc(cs, doc)
  {
    if cs != [] {
      var front, last := cs[..|cs| - 1], cs[|cs| - 1];
      OfDocWithout(front, docs, doc);
      if last.docId !in docs {
        OfDocAppend(Without(front, docs), [last], doc);
        assert OfDoc([last], doc) == if last.docId == doc then [last] else [];
      } else {
        assert Without(cs, docs) == Without(front, docs);
      }
    }
  }

  lemma {:induction false} OfDocAppend(a: seq<Chunk>, b: seq<Chunk>, doc: Id)
    ensures OfDoc(a + b, doc) == OfDoc(a, doc) + OfDoc(b, doc)
  {
    if b == [] {
      assert a + b == a;
    } else {
      assert (a + b)[..|a + b| - 1] == a + b[..|b| - 1];
      OfDocAppend(a, b[..|b| - 1], doc);
    }
  }

  lemma {:induction false} OfDocElsewhere(cs: seq<Chunk>, doc: Id)
    requires doc !in DocsOf(cs)
    ensures OfDoc(cs, doc) == []
  {
    if cs != [] {
      assert cs[|cs| - 1] in cs;
      assert forall c :: c in cs[..|cs| - 1] ==> c in cs;
      OfDocElsewhere(cs[..|cs| - 1], doc);
    }
  }

  /** After any calls, the chunks held for a document are the ones last indexed for it, in order. */
  lemma {:induction false} HoldsLastIndexed(ops: seq<Op>, doc: Id)
    ensures OfDoc(ApplyAll(ops), doc) == LastIndexed(ops, doc)
  {
    if ops != [] {
      var front, last := ops[..|ops| - 1], ops[|ops| - 1];
      HoldsLastIndexed(front, doc);
      match last
      case Remove(d) => OfDocWithout(ApplyAll(front), {d}, doc);
      case Put(batch) =>
        OfDocWithout(ApplyAll(front), DocsOf(batch), doc);
        OfDocAppend(Without(ApplyAll(front), DocsOf(batch)), batch, doc);
        if doc !in DocsOf(batch) {
          OfDocElsewhere(batch, doc);
        }
    }
  }

  lemma {:induction false} WithoutNothing(cs: seq<Chunk>, docs: set<Id>)
    requires forall c :: c in cs ==> c.docId !in docs
    ensures Without(cs, docs) == cs
  {
    if cs != [] {
      WithoutNothing(cs[..|cs| - 1], docs);
    }
  }

  lemma {:induction false} WithoutAll(cs: seq<Chunk>, docs: set<Id>)
    requires forall c :: c in cs ==> c.docId in docs
    ensures Without(cs, docs) == []
  {
    if cs != [] {
      WithoutAll(cs[..|cs| - 1], docs);
    }
  }

  lemma {:induction false} WithoutAppend(a: seq<Chunk>, b: seq<Chunk>, docs: set<Id>)
    ensures Without(a + b, docs) == Without(a, docs) + Without(b, docs)
  {
    if b == [] {
      assert a + b == a;
    } else {
      assert (a + b)[..|a + b| - 1] == a + b[..|b| - 1];
      WithoutAppend(a, b[..|b| - 1], docs);
    }
  }

  lemma {:induction false} WithoutLeavesOthers(cs: seq<Chunk>, docs: set<Id>)
    ensures forall c :: c in Without(cs, docs) ==> c.docId !in docs
  {
    if cs != [] {
      WithoutLeavesOthers(cs[..|cs| - 1], docs);
    }
  }

  // What leaves with a larger set of documents need not leave before.
  lemma {:induction false} WithoutTwice(cs: seq<Chunk>, some: set<Id>, docs: set<Id>)
    requires some <= docs
    ensures Without(Without(cs, some), docs) == Without(cs, docs)
  {
    if cs != [] {
      var front, last := cs[..|cs| - 1], cs[|cs| - 1];
      WithoutTwice(front, some, docs);
      WithoutAppend(Without(front, some), if last.docId in some then [] else [last], docs);
      assert [last][..0] == [] && Without([last], docs) == if last.docId in docs then [] else [last];
    }
  }

  /**
   Indexing the same batch again changes nothing; indexing after removing one of its documents is the same as indexing.
   */
  lemma {:induction false} ReindexingIsIdempotent(cs: seq<Chunk>, batch: seq<Chunk>)
    ensures Apply(Apply(cs, Put(batch)), Put(batch)) == Apply(cs, Put(batch))
    ensures forall doc :: doc in DocsOf(batch) ==> Apply(Apply(cs, Remove(doc)), Put(batch)) == Apply(cs, Put(batch))
  {
    var docs := DocsOf(batch);
    var kept := Without(cs, docs);
    WithoutLeavesOthers(cs, docs);
    assert forall c :: c in batch ==> c.docId in docs;
    WithoutTail(kept, batch, docs);
    forall doc | doc in docs
      ensures Apply(Apply(cs, Remove(doc)), Put(batch)) == Apply(cs, Put(batch))
    {
      WithoutTwice(cs, {doc}, docs);
    }
  }

  lemma {:induction false} WithoutTail(kept: seq<Chunk>, batch: seq<Chunk>, docs: set<Id>)
    requires forall c :: c in kept ==> c.docId !in docs
    requires forall c :: c in batch ==> c.docId in docs
    ensures Without(kept + batch, docs) == kept
  {
    WithoutAppend(kept, batch, docs);
    WithoutNothing(kept, docs);
    WithoutAll(batch, docs);
  }
}
