/** The index of one knowledge base, updated in place. */
module MemoryIndex {
  import opened Prelude
  import opened KeywordIndex

  function ContentsOf(cs: seq<IndexedChunk>): (r: seq<Chunk>)
    ensures |r| == |cs| && forall i :: 0 <= i < |r| ==> r[i] == cs[i].chunk
  {
    seq(|cs|, i requires 0 <= i < |cs| => cs[i].chunk)
  }

  // ---- what one more chunk changes in the counts ----

  lemma {:induction false} HavingPrefix(a: seq<IndexedChunk>, c: IndexedChunk, n: nat, t: Term)
    requires n <= |a|
    ensures Having(a + [c], n, t) == Having(a, n, t)
  {
    if n > 0 {
      HavingPrefix(a, c, n - 1, t);
    }
  }

  lemma {:induction false} LengthsPrefix(a: seq<IndexedChunk>, c: IndexedChunk, n: nat)
    requires n <= |a|
    ensures Lengths(a + [c], n) == Lengths(a, n)
  {
    if n > 0 {
      LengthsPrefix(a, c, n - 1);
    }
  }

  lemma {:induction false} OneMoreChunk(a: seq<IndexedChunk>, c: IndexedChunk)
    ensures Lengths(a + [c], |a| + 1) == Lengths(a, |a|) + c.len
    ensures forall t :: Having(a + [c], |a| + 1, t) == Having(a, |a|, t) + (if t in c.terms then 1 else 0)
  {
    LengthsPrefix(a, c, |a|);
    forall t
      ensures Having(a + [c], |a| + 1, t) == Having(a, |a|, t) + (if t in c.terms then 1 else 0)
    {
      HavingPrefix(a, c, |a|, t);
    }
  }

  lemma {:induction false} HavingGrows(cs: seq<IndexedChunk>, n: nat, m: nat, t: Term)
    requires n <= m <= |cs|
    ensures Having(cs, n, t) <= Having(cs, m, t)
    decreases m
  {
    if n < m {
      HavingGrows(cs, n, m - 1, t);
    }
  }

  // The chunks of cs[..i] that stay, with the counts of those and of cs[i..].
  ghost predicate Removing(cs: seq<IndexedChunk>, i: nat, kept: seq<IndexedChunk>, docs: set<Id>, df: map<Term, int>,
      totalLen: int)
    requires i <= |cs|
  {
    && ContentsOf(kept) == Without(ContentsOf(cs[..i]), docs)
    && totalLen == Lengths(kept, |kept|) + Lengths(cs, |cs|) - Lengths(cs, i)
    && forall t :: Counting(cs, i, kept, df, t)
  }

  // The state of the loop of RemoveDocs.
  ghost predicate Halfway(tokenize: Tokenizer, cs: seq<IndexedChunk>, i: nat, kept: seq<IndexedChunk>, docs: set<Id>,
                          df: map<Term, int>, totalLen: int) {
    && i <= |cs| && Removing(cs, i, kept, docs, df, totalLen)
    && (forall k :: 0 <= k < |cs| ==> cs[k] == Indexed(tokenize, cs[k].chunk))
    && (forall k :: 0 <= k < |kept| ==> kept[k] == Indexed(tokenize, kept[k].chunk))
  }

  predicate Counting(cs: seq<IndexedChunk>, i: nat, kept: seq<IndexedChunk>, df: map<Term, int>, t: Term)
    requires i <= |cs|
  {
    Get(df, t) == Having(kept, |kept|, t) + Having(cs, |cs|, t) - Having(cs, i, t) && (t in df ==> df[t] > 0)
  }

  // What Forget does to the counts: one fewer for each term, and none below zero.
  ghost predicate Forgot(df: map<Term, int>, df': map<Term, int>, terms: set<Term>) {
    && (forall t :: t in df' ==> df'[t] > 0)
    && (forall t :: Get(df', t) == if t in terms then (if Get(df, t) > 0 then Get(df, t) - 1 else 0) else Get(df, t))
  }

  lemma {:induction false} CountingIsPositive(tokenize: Tokenizer, cs: seq<IndexedChunk>, i: nat,
      kept: seq<IndexedChunk>, docs: set<Id>, df: map<Term, int>, totalLen: int)
    requires Halfway(tokenize, cs, i, kept, docs, df, totalLen)
    ensures forall t :: t in df ==> df[t] > 0
  {
    forall t: Term
      ensures t in df ==> df[t] > 0
    {
      assert Counting(cs, i, kept, df, t);
    }
  }

  lemma {:induction false} ContentsStep(cs: seq<IndexedChunk>, i: nat, docs: set<Id>)
    requires i < |cs|
    ensures Without(ContentsOf(cs[..i + 1]), docs)
      == Without(ContentsOf(cs[..i]), docs) + (if cs[i].chunk.docId in docs then [] else [cs[i].chunk])
  {
    assert ContentsOf(cs[..i + 1])[..i] == ContentsOf(cs[..i]);
  }

  lemma {:induction false} DropStep(tokenize: Tokenizer, cs: seq<IndexedChunk>, i: nat, kept: seq<IndexedChunk>,
      docs: set<Id>, df: map<Term, int>, df': map<Term, int>, totalLen: int)
    requires i < |cs| && cs[i].chunk.docId in docs
    requires Halfway(tokenize, cs, i, kept, docs, df, totalLen) && Forgot(df, df', cs[i].terms.Keys)
    ensures Halfway(tokenize, cs, i + 1, kept, docs, df', totalLen - cs[i].len)
  {
    ContentsStep(cs, i, docs);
    var j := i + 1;
    forall t
      ensures Counting(cs, j, kept, df', t)
    {
      assert Counting(cs, i, kept, df, t);
      HavingGrows(cs, i + 1, |cs|, t);
    }
  }

  lemma {:induction false} KeepStep(tokenize: Tokenizer, cs: seq<IndexedChunk>, i: nat, kept: seq<IndexedChunk>,
      docs: set<Id>, df: map<Term, int>, totalLen: int)
    requires i < |cs| && cs[i].chunk.docId !in docs
    requires Halfway(tokenize, cs, i, kept, docs, df, totalLen)
    ensures Halfway(tokenize, cs, i + 1, kept + [cs[i]], docs, df, totalLen)
  {
    ContentsStep(cs, i, docs);
    OneMoreChunk(kept, cs[i]);
    var j, more := i + 1, kept + [cs[i]];
    assert ContentsOf(more) == ContentsOf(kept) + [cs[i].chunk];
    forall t
      ensures Counting(cs, j, more, df, t)
    {
      assert Counting(cs, i, kept, df, t);
    }
  }

  lemma {:induction false} BuiltIsPositive(tokenize: Tokenizer, idx: Index, cs: seq<Chunk>)
    requires BuiltFrom(tokenize, idx, cs)
    ensures forall t :: t in idx.df ==> idx.df[t] > 0
    ensures forall t :: Get(idx.df, t) == Having(idx.chunks, |idx.chunks|, t)
  {
    forall t: Term
      ensures Get(idx.df, t) == Having(idx.chunks, |idx.chunks|, t) && (t in idx.df ==> idx.df[t] > 0)
    {
      assert Counts(idx.df, t, Having(idx.chunks, |idx.chunks|, t));
    }
  }

  lemma {:induction false} StartRemoving(tokenize: Tokenizer, idx: Index, docs: set<Id>)
    requires BuiltFrom(tokenize, idx, ContentsOf(idx.chunks))
    ensures Halfway(tokenize, idx.chunks, 0, [], docs, idx.df, idx.totalLen)
  {
    BuiltIsPositive(tokenize, idx, ContentsOf(idx.chunks));
  }

  lemma {:induction false} EndRemoving(tokenize: Tokenizer, cs: seq<IndexedChunk>, kept: seq<IndexedChunk>,
      docs: set<Id>, df: map<Term, int>, totalLen: int)
    requires Halfway(tokenize, cs, |cs|, kept, docs, df, totalLen)
    ensures ContentsOf(kept) == Without(ContentsOf(cs), docs)
    ensures BuiltFrom(tokenize, Index(kept, df, totalLen), ContentsOf(kept))
  {
    assert cs[..|cs|] == cs;
    forall t: Term
      ensures Counts(df, t, Having(kept, |kept|, t))
    {
      assert Counting(cs, |cs|, kept, df, t);
    }
  }

  lemma {:induction false} AppendNext(kept: seq<Chunk>, batch: seq<Chunk>, i: nat)
    requires i < |batch|
    ensures kept + batch[..i] + [batch[i]] == kept + batch[..i + 1]
  {
  }

  // What Learn does to the counts.
  ghost predicate Learnt(df: map<Term, int>, df': map<Term, int>, terms: set<Term>) {
    && (forall t :: t in df' ==> df'[t] > 0)
    && (forall t :: Get(df', t) == Get(df, t) + (if t in terms then 1 else 0))
  }

  lemma {:induction false} AddingKeepsBuilt(tokenize: Tokenizer, idx: Index, c: Chunk, df': map<Term, int>)
    requires BuiltFrom(tokenize, idx, ContentsOf(idx.chunks)) && Learnt(idx.df, df', Indexed(tokenize, c).terms.Keys)
    ensures
      var more := idx.chunks + [Indexed(tokenize, c)];
      && BuiltFrom(tokenize, Index(more, df', idx.totalLen + Indexed(tokenize, c).len), ContentsOf(more))
      && ContentsOf(more) == ContentsOf(idx.chunks) + [c]
  {
    var more := idx.chunks + [Indexed(tokenize, c)];
    BuiltIsPositive(tokenize, idx, ContentsOf(idx.chunks));
    OneMoreChunk(idx.chunks, Indexed(tokenize, c));
    forall t: Term
      ensures Counts(df', t, Having(more, |more|, t))
    {
      assert Get(df', t) == Having(more, |more|, t);
    }
  }

  class KbIndex {
    const tokenize: Tokenizer
    var chunks: seq<IndexedChunk>
    var df: map<Term, int>
    var totalLen: int

    ghost function State(): Index
      reads this
    {
      Index(chunks, df, totalLen)
    }

    ghost function Contents(): seq<Chunk>
      reads this
    {
      ContentsOf(chunks)
    }

    ghost predicate Valid()
      reads this
    {
      BuiltFrom(tokenize, State(), Contents())
    }

    constructor (tokenize: Tokenizer)
      ensures Valid() && Contents() == [] && this.tokenize == tokenize
    {
      this.tokenize := tokenize;
      chunks, df, totalLen := [], map[], 0;
    }

    // One fewer chunk contains each of these terms.
    method Forget(terms: set<Term>)
      requires forall t :: t in df ==> df[t] > 0
      modifies this`df
      ensures Forgot(old(df), df, terms)
    {
      var todo := terms;
      while todo != {}
        invariant todo <= terms
        invariant forall t :: t in df ==> df[t] > 0
        invariant forall t :: t in todo || t !in terms ==> Get(df, t) == Get(old(df), t)
        invariant forall t :: t in terms && t !in todo ==>
          Get(df, t) == if Get(old(df), t) > 0 then Get(old(df), t) - 1 else 0
        decreases |todo|
      {
        var t :| t in todo;
        df := df[t := Get(df, t) - 1];
        if df[t] <= 0 {
          df := df - {t};
        }
        todo := todo - {t};
      }
    }

    // One more chunk contains each of these terms.
    method Learn(terms: set<Term>)
      requires forall t :: t in df ==> df[t] > 0
      modifies this`df
      ensures Learnt(old(df), df, terms)
    {
      var todo := terms;
      while todo != {}
        invariant todo <= terms
        invariant forall t :: t in df ==> df[t] > 0
        invariant forall t :: Get(df, t) == Get(old(df), t) + (if t in terms && t !in todo then 1 else 0)
        decreases |todo|
      {
        var t :| t in todo;
        df := df[t := Get(df, t) + 1];
        todo := todo - {t};
      }
    }

    // One chunk, kept or taken out of the counts.
    method Visit(i: nat, kept: seq<IndexedChunk>, docs: set<Id>) returns (more: seq<IndexedChunk>)
      requires i < |chunks| && Halfway(tokenize, chunks, i, kept, docs, df, totalLen)
      modifies this`df, this`totalLen
      ensures Halfway(tokenize, chunks, i + 1, more, docs, df, totalLen)
    {
      var c := chunks[i];
      if c.chunk.docId in docs {
        CountingIsPositive(tokenize, chunks, i, kept, docs, df, totalLen);
        totalLen := totalLen - c.len;
        Forget(c.terms.Keys);
        DropStep(tokenize, chunks, i, kept, docs, old(df), df, old(totalLen));
        return kept;
      }
      KeepStep(tokenize, chunks, i, kept, docs, df, totalLen);
      return kept + [c];
    }

    method RemoveDocs(docs: set<Id>)
      requires Valid()
      modifies this
      ensures Valid() && Contents() == Without(old(Contents()), docs)
    {
      if |chunks| == 0 {
        return;
      }
      var kept: seq<IndexedChunk> := [];
      StartRemoving(tokenize, State(), docs);
      for i := 0 to |chunks|
        invariant chunks == old(chunks) && Halfway(tokenize, chunks, i, kept, docs, df, totalLen)
      {
        kept := Visit(i, kept, docs);
      }
      EndRemoving(tokenize, chunks, kept, docs, df, totalLen);
      chunks := kept;
    }

    method RemoveDocument(doc: Id)
      requires Valid()
      modifies this
      ensures Valid() && Contents() == Apply(old(Contents()), Remove(doc))
    {
      RemoveDocs({doc});
    }

    // One chunk of a batch.
    method Add(c: Chunk)
      requires Valid()
      modifies this
      ensures Valid() && Contents() == old(Contents()) + [c]
    {
      var terms := CountTerms(tokenize(c.content));
      var len := TokenCount(terms);
      TotalIsTokenCount(tokenize(c.content));
      BuiltIsPositive(tokenize, State(), Contents());
      ghost var before := State();
      chunks := chunks + [IndexedChunk(c, terms, len)];
      totalLen := totalLen + len;
      Learn(terms.Keys);
      AddingKeepsBuilt(tokenize, before, c, df);
    }

    method Put(batch: seq<Chunk>)
      requires Valid()
      modifies this
      ensures Valid() && Contents() == Apply(old(Contents()), KeywordIndex.Put(batch))
      ensures |Contents()| >= |batch| && Contents()[|Contents()| - |batch|..] == batch
    {
      var affected := DocsOf(batch);
      RemoveDocs(affected);
      ghost var kept := Contents();
      for i := 0 to |batch|
        invariant Valid() && Contents() == kept + batch[..i]
      {
        AppendNext(kept, batch, i);
        Add(batch[i]);
      }
      assert batch[..|batch|] == batch;
    }
  }
}
