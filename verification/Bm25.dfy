/**
 BM25 search over one knowledge base's index.  Scores are real numbers, and of the logarithm only that it is
 positive above 1, and where said that it increases, is used.  Search is the program's loops; the lemmas say
 which chunks are scored and what raises a score, and that in every index the calls can build the divisions are
 defined and the scores positive.
 */
module Bm25 {
  import opened Prelude
  import opened KeywordIndex

  type Log = real -> real

  const K1 := 1.5
  const B := 0.75

  datatype Passage = Passage(docId: Id, chunkId: Id, text: string, score: real)

  ghost predicate PositiveAboveOne(log: Log) {
    forall x :: x > 1.0 ==> log(x) > 0.0
  }

  // ---- the arithmetic of one chunk ----

  // What the arithmetic of a matching term divides by.
  predicate Divisible(idx: Index, c: IndexedChunk, t: Term) {
    t in c.terms ==> c.terms[t] > 0 && 1 <= Get(idx.df, t) <= |idx.chunks| && idx.totalLen > 0
  }

  function Idf(log: Log, n: real, df: real): real
    requires df > 0.0
  {
    log(1.0 + (n - df + 0.5) / (df + 0.5))
  }

  lemma {:induction false} PositiveRatio(x: real, y: real)
    requires x > 0.0 && y > 0.0
    ensures x / y > 0.0 && x * y > 0.0
  {
  }

  function Norm(len: real, avgdl: real): (r: real)
    requires len >= 0.0 && avgdl > 0.0
    ensures r > 0.0
  {
    assert B * len / avgdl >= 0.0 by {
      if len > 0.0 {
        PositiveRatio(B * len, avgdl);
      }
    }
    K1 * (1.0 - B + B * len / avgdl)
  }

  function Average(idx: Index): (r: real)
    requires idx.totalLen > 0 && |idx.chunks| > 0
    ensures r > 0.0
  {
    PositiveRatio(idx.totalLen as real, |idx.chunks| as real);
    idx.totalLen as real / |idx.chunks| as real
  }

  // What one query term adds to a chunk's score.
  function Contribution(log: Log, idx: Index, c: IndexedChunk, t: Term): real
    requires Divisible(idx, c, t)
  {
    if t !in c.terms then 0.0
    else
      var tf := c.terms[t] as real;
      var denom := tf + Norm(c.len as real, Average(idx));
      Idf(log, |idx.chunks| as real, Get(idx.df, t) as real) * (tf * (K1 + 1.0)) / denom
  }

  /** A query term adds to the score exactly of the chunks that contain it. */
  lemma {:induction false} ContributionIsPositiveIff(log: Log, idx: Index, c: IndexedChunk, t: Term)
    requires PositiveAboveOne(log) && Divisible(idx, c, t)
    ensures Contribution(log, idx, c, t) >= 0.0
    ensures Contribution(log, idx, c, t) > 0.0 <==> t in c.terms
  {
    if t in c.terms {
      var n, df, tf := |idx.chunks| as real, Get(idx.df, t) as real, c.terms[t] as real;
      var denom := tf + Norm(c.len as real, Average(idx));
      PositiveRatio(n - df + 0.5, df + 0.5);
      assert Idf(log, n, df) > 0.0;
      PositiveRatio(Idf(log, n, df), tf * (K1 + 1.0));
      PositiveRatio(Idf(log, n, df) * (tf * (K1 + 1.0)), denom);
    }
  }

  // ---- what raises a score ----

  ghost predicate Increasing(log: Log) {
    forall x, y :: x < y ==> log(x) < log(y)
  }

  lemma {:induction false} QuotientIs(x: real, y: real, q: real)
    requires y > 0.0 && x == q * y
    ensures x / y == q
  {
    assert (x / y - q) * y == 0.0;
  }

  lemma {:induction false} LessOverMore(x: real, y: real, y': real)
    requires x > 0.0 && 0.0 < y < y'
    ensures x / y' < x / y
  {
    PositiveRatio(x, y);
    PositiveRatio(x / y, (y' - y) / y');
    QuotientIs(x, y', x / y - x / y * (y' - y) / y');
  }

  lemma {:induction false} RarerIsHeavier(log: Log, n: real, df: real, df': real)
    requires PositiveAboveOne(log) && Increasing(log) && 0.0 < df < df' <= n
    ensures Idf(log, n, df) > Idf(log, n, df') > 0.0
  {
    LessOverMore(n + 1.0, df + 0.5, df' + 0.5);
    QuotientIs(n - df + 0.5, df + 0.5, (n + 1.0) / (df + 0.5) - 1.0);
    QuotientIs(n - df' + 0.5, df' + 0.5, (n + 1.0) / (df' + 0.5) - 1.0);
    PositiveRatio(n - df' + 0.5, df' + 0.5);
  }

  lemma {:induction false} ScalesUp(x: real, x': real, y: real, z: real)
    requires x < x' && y > 0.0 && z > 0.0
    ensures x * y / z < x' * y / z
  {
    PositiveRatio(x' - x, y);
    PositiveRatio((x' - x) * y, z);
    assert x' * y / z - x * y / z == (x' - x) * y / z;
  }

  /** Of two terms with equal counts, in chunks of equal length, the one that fewer chunks contain scores higher. */
  lemma {:induction false} RarerScoresHigher(log: Log, idx: Index, c: IndexedChunk, t: Term, c': IndexedChunk, u: Term)
    requires PositiveAboveOne(log) && Increasing(log) && Divisible(idx, c, t) && Divisible(idx, c', u)
    requires t in c.terms && u in c'.terms && c.terms[t] == c'.terms[u] && c.len == c'.len
    requires Get(idx.df, t) < Get(idx.df, u)
    ensures Contribution(log, idx, c, t) > Contribution(log, idx, c', u)
  {
    var n, df, df', tf := |idx.chunks| as real, Get(idx.df, t) as real, Get(idx.df, u) as real, c.terms[t] as real;
    RarerIsHeavier(log, n, df, df');
    var denom := tf + Norm(c.len as real, Average(idx));
    ScalesUp(Idf(log, n, df'), Idf(log, n, df), tf * (K1 + 1.0), denom);
  }

  lemma {:induction false} MoreOverMore(x: real, x': real, y: real)
    requires 0.0 < x < x' && y > 0.0
    ensures x / (x + y) < x' / (x' + y)
  {
    LessOverMore(y, x + y, x' + y);
    QuotientIs(x, x + y, 1.0 - y / (x + y));
    QuotientIs(x', x' + y, 1.0 - y / (x' + y));
  }

  /** Of two chunks of equal length, the one with more occurrences of a term scores higher for it. */
  lemma {:induction false} MoreOftenScoresHigher(log: Log, idx: Index, c: IndexedChunk, c': IndexedChunk, t: Term)
    requires PositiveAboveOne(log) && Divisible(idx, c, t) && Divisible(idx, c', t)
    requires t in c.terms && t in c'.terms && c.terms[t] < c'.terms[t] && c.len == c'.len
    ensures Contribution(log, idx, c, t) < Contribution(log, idx, c', t)
  {
    var n, df, tf, tf' := |idx.chunks| as real, Get(idx.df, t) as real, c.terms[t] as real, c'.terms[t] as real;
    var idf, norm := Idf(log, n, df), Norm(c.len as real, Average(idx));
    PositiveRatio(n - df + 0.5, df + 0.5);
    MoreOverMore(tf, tf', norm);
    ScalesUp(tf / (tf + norm), tf' / (tf' + norm), idf * (K1 + 1.0), 1.0);
    assert idf * (tf * (K1 + 1.0)) / (tf + norm) == tf / (tf + norm) * (idf * (K1 + 1.0));
    assert idf * (tf' * (K1 + 1.0)) / (tf' + norm) == tf' / (tf' + norm) * (idf * (K1 + 1.0));
  }

  lemma {:induction false} LongerNorm(len: real, len': real, avgdl: real)
    requires 0.0 <= len < len' && avgdl > 0.0
    ensures Norm(len, avgdl) < Norm(len', avgdl)
  {
    ScalesUp(len, len', B, avgdl);
  }

  /** Of two chunks with equally many occurrences of a term, the longer one scores lower for it. */
  lemma {:induction false} LongerScoresLower(log: Log, idx: Index, c: IndexedChunk, c': IndexedChunk, t: Term)
    requires PositiveAboveOne(log) && Divisible(idx, c, t) && Divisible(idx, c', t)
    requires t in c.terms && t in c'.terms && c.terms[t] == c'.terms[t] && c.len < c'.len
    ensures Contribution(log, idx, c', t) < Contribution(log, idx, c, t)
  {
    var n, df, tf := |idx.chunks| as real, Get(idx.df, t) as real, c.terms[t] as real;
    var idf, avgdl := Idf(log, n, df), Average(idx);
    PositiveRatio(n - df + 0.5, df + 0.5);
    PositiveRatio(idf, tf * (K1 + 1.0));
    LongerNorm(c.len as real, c'.len as real, avgdl);
    LessOverMore(idf * (tf * (K1 + 1.0)), tf + Norm(c.len as real, avgdl), tf + Norm(c'.len as real, avgdl));
  }

  // ---- the score of one chunk ----

  // The sum over the query terms, in whatever order they are added up.
  ghost function Score(log: Log, idx: Index, c: IndexedChunk, terms: set<Term>): real
    requires forall t :: t in terms ==> Divisible(idx, c, t)
  {
    if terms == {} then 0.0
    else
      var t :| t in terms;
      Contribution(log, idx, c, t) + Score(log, idx, c, terms - {t})
  }

  lemma {:induction false} ScoreRemove(log: Log, idx: Index, c: IndexedChunk, terms: set<Term>, t: Term)
    requires forall u :: u in terms ==> Divisible(idx, c, u)
    requires t in terms
    ensures Score(log, idx, c, terms) == Contribution(log, idx, c, t) + Score(log, idx, c, terms - {t})
    decreases terms
  {
    var u :| u in terms && Score(log, idx, c, terms) == Contribution(log, idx, c, u) + Score(log, idx, c, terms - {u});
    if u != t {
      ScoreRemove(log, idx, c, terms - {u}, t);
      ScoreRemove(log, idx, c, terms - {t}, u);
      assert terms - {u} - {t} == terms - {t} - {u};
    }
  }

  predicate SharesTerm(c: IndexedChunk, terms: set<Term>) {
    exists t :: t in terms && t in c.terms
  }

  /** A chunk's score is positive exactly when it shares a term with the query, and never negative. */
  lemma {:induction false} ScoreIsPositiveIff(log: Log, idx: Index, c: IndexedChunk, terms: set<Term>)
    requires PositiveAboveOne(log) && forall t :: t in terms ==> Divisible(idx, c, t)
    ensures Score(log, idx, c, terms) >= 0.0
    ensures Score(log, idx, c, terms) > 0.0 <==> SharesTerm(c, terms)
    decreases terms
  {
    if terms != {} {
      var t :| t in terms && Score(log, idx, c, terms)
        == Contribution(log, idx, c, t) + Score(log, idx, c, terms - {t});
      ContributionIsPositiveIff(log, idx, c, t);
      ScoreIsPositiveIff(log, idx, c, terms - {t});
      assert SharesTerm(c, terms) <==> t in c.terms || SharesTerm(c, terms - {t});
    }
  }

  // ---- every index the calls can build ----

  lemma {:induction false} CountedChunk(cs: seq<IndexedChunk>, n: nat, i: nat, t: Term)
    requires i < n <= |cs|
    ensures t in cs[i].terms ==> 1 <= Having(cs, n, t)
    ensures Having(cs, n, t) <= n && cs[i].len <= Lengths(cs, n)
  {
    HavingAtMost(cs, n - 1, t);
    if i < n - 1 {
      CountedChunk(cs, n - 1, i, t);
    }
  }

  lemma {:induction false} HavingAtMost(cs: seq<IndexedChunk>, n: nat, t: Term)
    requires n <= |cs|
    ensures Having(cs, n, t) <= n
  {
    if n > 0 {
      HavingAtMost(cs, n - 1, t);
    }
  }

  /**
   In an index built by the calls, an indexed term's frequency is between 1 and the number of chunks, and
   lengths average above 0.
   */
  lemma {:induction false} BuiltIsDivisible(tokenize: Tokenizer, idx: Index, cs: seq<Chunk>, i: nat, t: Term)
    requires BuiltFrom(tokenize, idx, cs) && i < |idx.chunks|
    ensures Divisible(idx, idx.chunks[i], t)
  {
    var c := idx.chunks[i];
    if t in c.terms {
      assert c == Indexed(tokenize, cs[i]);
      CountedChunk(idx.chunks, |idx.chunks|, i, t);
      assert Counts(idx.df, t, Having(idx.chunks, |idx.chunks|, t));
    }
  }

  lemma {:induction false} AllDivisible(tokenize: Tokenizer, idx: Index, cs: seq<Chunk>)
    requires BuiltFrom(tokenize, idx, cs)
    ensures Scorable(idx)
  {
    forall i: nat, t | i < |idx.chunks|
      ensures Divisible(idx, idx.chunks[i], t)
    {
      BuiltIsDivisible(tokenize, idx, cs, i, t);
    }
  }

  ghost predicate Scorable(idx: Index) {
    forall i: nat, t :: i < |idx.chunks| ==> Divisible(idx, idx.chunks[i], t)
  }

  // ---- search ----

  function PassageOf(c: Chunk, score: real): Passage {
    Passage(c.docId, c.id, c.content, score)
  }

  // The chunks among the first n that are scored, in order.
  ghost function Scored(log: Log, idx: Index, terms: set<Term>, n: nat): seq<Passage>
    requires n <= |idx.chunks| && Scorable(idx)
  {
    if n == 0 then []
    else
      var c := idx.chunks[n - 1];
      var score := Score(log, idx, c, terms);
      Scored(log, idx, terms, n - 1) + (if score > 0.0 then [PassageOf(c.chunk, score)] else [])
  }

  // The chunks among the first n that share a term with the query.
  function Matching(idx: Index, terms: set<Term>, n: nat): seq<IndexedChunk>
    requires n <= |idx.chunks|
  {
    if n == 0 then []
    else Matching(idx, terms, n - 1) + (if SharesTerm(idx.chunks[n - 1], terms) then [idx.chunks[n - 1]] else [])
  }

  /** Scored are exactly the chunks that share a term with the query, each with its positive score. */
  lemma {:induction false} ScoredAreMatching(log: Log, idx: Index, terms: set<Term>, n: nat)
    requires PositiveAboveOne(log) && Scorable(idx) && n <= |idx.chunks|
    ensures
      var scored, matching := Scored(log, idx, terms, n), Matching(idx, terms, n);
      |scored| == |matching| && forall k: nat :: k < |scored| ==>
        && (exists i: nat ::
            i < |idx.chunks| && idx.chunks[i] == matching[k]
              && scored[k] == PassageOf(idx.chunks[i].chunk, Score(log, idx, idx.chunks[i], terms)))
        && scored[k].score > 0.0
  {
    if n > 0 {
      ScoredAreMatching(log, idx, terms, n - 1);
      ScoreIsPositiveIff(log, idx, idx.chunks[n - 1], terms);
    }
  }

  // sort.SliceStable by descending score.
  function Insert(p: Passage, sorted: seq<Passage>): seq<Passage> {
    if sorted == [] || p.score >= sorted[0].score then [p] + sorted else [sorted[0]] + Insert(p, sorted[1..])
  }

  function SortByScore(ps: seq<Passage>): seq<Passage> {
    if ps == [] then [] else Insert(ps[0], SortByScore(ps[1..]))
  }

  predicate Descending(ps: seq<Passage>) {
    |ps| <= 1 || (ps[0].score >= ps[1].score && Descending(ps[1..]))
  }

  function WithScore(ps: seq<Passage>, score: real): seq<Passage> {
    if ps == [] then [] else (if ps[0].score == score then [ps[0]] else []) + WithScore(ps[1..], score)
  }

  lemma {:induction false} InsertDescends(p: Passage, sorted: seq<Passage>)
    requires Descending(sorted)
    ensures Descending(Insert(p, sorted))
  {
    if sorted == [] || p.score >= sorted[0].score {
      assert ([p] + sorted)[1..] == sorted;
    } else {
      var rest := Insert(p, sorted[1..]);
      InsertDescends(p, sorted[1..]);
      assert ([sorted[0]] + rest)[1..] == rest;
    }
  }

  lemma {:induction false} InsertKeepsAll(p: Passage, sorted: seq<Passage>)
    ensures multiset(Insert(p, sorted)) == multiset(sorted) + multiset{p}
  {
    if !(sorted == [] || p.score >= sorted[0].score) {
      InsertKeepsAll(p, sorted[1..]);
      assert sorted == [sorted[0]] + sorted[1..];
    }
  }

  lemma {:induction false} WithScoreFirst(p: Passage, ps: seq<Passage>, score: real)
    ensures WithScore([p] + ps, score) == if p.score == score then [p] + WithScore(ps, score) else WithScore(ps, score)
  {
    assert ([p] + ps)[1..] == ps;
  }

  lemma {:induction false} InsertKeepsTies(p: Passage, sorted: seq<Passage>, score: real)
    ensures WithScore(Insert(p, sorted), score) == if p.score == score then [p] + WithScore(sorted, score)
        else WithScore(sorted, score)
  {
    if sorted == [] || p.score >= sorted[0].score {
      WithScoreFirst(p, sorted, score);
    } else {
      InsertKeepsTies(p, sorted[1..], score);
      WithScoreFirst(sorted[0], Insert(p, sorted[1..]), score);
      WithScoreFirst(sorted[0], sorted[1..], score);
      assert sorted == [sorted[0]] + sorted[1..];
    }
  }

  lemma {:induction false} SortDescends(ps: seq<Passage>)
    ensures Descending(SortByScore(ps))
  {
    if ps != [] {
      SortDescends(ps[1..]);
      InsertDescends(ps[0], SortByScore(ps[1..]));
    }
  }

  lemma {:induction false} SortKeepsAll(ps: seq<Passage>)
    ensures multiset(SortByScore(ps)) == multiset(ps)
  {
    if ps != [] {
      SortKeepsAll(ps[1..]);
      InsertKeepsAll(ps[0], SortByScore(ps[1..]));
      assert ps == [ps[0]] + ps[1..];
    }
  }

  lemma {:induction false} SortKeepsTies(ps: seq<Passage>, score: real)
    ensures WithScore(SortByScore(ps), score) == WithScore(ps, score)
  {
    if ps != [] {
      SortKeepsTies(ps[1..], score);
      InsertKeepsTies(ps[0], SortByScore(ps[1..]), score);
    }
  }

  /** Sorting orders by descending score, loses and adds nothing, and keeps the order of equal scores. */
  lemma {:induction false} SortIsStable(ps: seq<Passage>, score: real)
    ensures Descending(SortByScore(ps)) && multiset(SortByScore(ps)) == multiset(ps)
    ensures WithScore(SortByScore(ps), score) == WithScore(ps, score)
  {
    SortDescends(ps);
    SortKeepsAll(ps);
    SortKeepsTies(ps, score);
  }

  function Top(ps: seq<Passage>, n: nat): seq<Passage> {
    if |ps| > n then ps[..n] else ps
  }

  ghost function Found(log: Log, idx: Index, terms: set<Term>, n: nat): seq<Passage>
    requires Scorable(idx)
  {
    Top(SortByScore(Scored(log, idx, terms, |idx.chunks|)), n)
  }

  lemma {:induction false} DescendingPairs(ps: seq<Passage>, i: nat, j: nat)
    requires Descending(ps) && i < j < |ps|
    ensures ps[i].score >= ps[j].score
  {
    if i > 0 {
      DescendingPairs(ps[1..], i - 1, j - 1);
    } else if j > 1 {
      DescendingPairs(ps[1..], 0, j - 1);
    }
  }

  // `found` and `rest` together are all of them, and none of the rest has a better score than one found.
  predicate Splits(found: seq<Passage>, rest: seq<Passage>, all: seq<Passage>) {
    && multiset(found) + multiset(rest) == multiset(all)
    && forall i, j :: 0 <= i < |found| && 0 <= j < |rest| ==> found[i].score >= rest[j].score
  }

  lemma {:induction false} TopSplits(sorted: seq<Passage>, n: nat)
    requires Descending(sorted) && n <= |sorted|
    ensures Splits(sorted[..n], sorted[n..], sorted)
  {
    assert sorted == sorted[..n] + sorted[n..];
    forall i, j | 0 <= i < n && 0 <= j < |sorted| - n
      ensures sorted[..n][i].score >= sorted[n..][j].score
    {
      DescendingPairs(sorted, i, n + j);
    }
  }

  lemma {:induction false} BestOf(all: seq<Passage>, n: nat)
    ensures |Top(SortByScore(all), n)| == if |all| < n then |all| else n
    ensures exists rest :: Splits(Top(SortByScore(all), n), rest, all)
  {
    var sorted := SortByScore(all);
    SortDescends(all);
    SortKeepsAll(all);
    assert |sorted| == |multiset(sorted)| == |multiset(all)| == |all|;
    var k := if |all| < n then |all| else n;
    TopSplits(sorted, k);
    assert Top(sorted, n) == sorted[..k];
    assert Splits(sorted[..k], sorted[k..], all);
  }

  /**
   A search finds as many of the chunks that share a term with the query as were asked for: it finds scored
   chunks only, the rest are the scored chunks it does not find, and none of those has a better score.
   */
  lemma {:induction false} FoundAreBest(log: Log, idx: Index, terms: set<Term>, n: nat)
    requires PositiveAboveOne(log) && Scorable(idx)
    ensures
      var found, matching := Found(log, idx, terms, n), Matching(idx, terms, |idx.chunks|);
      && |found| == (if |matching| < n then |matching| else n)
      && exists rest :: Splits(found, rest, Scored(log, idx, terms, |idx.chunks|))
  {
    ScoredAreMatching(log, idx, terms, |idx.chunks|);
    BestOf(Scored(log, idx, terms, |idx.chunks|), n);
  }

  // ---- two small indexes, in numbers ----

  lemma {:induction false} OneToken(t: Term)
    ensures TermFreq([t]) == map[t := 1]
  {
    assert [t][..0] == [];
  }

  lemma {:induction false} ThreeTokens(t: Term, u: Term)
    requires t != u
    ensures TermFreq([t, t, u]) == map[t := 2, u := 1]
  {
    assert [t, t, u][..2] == [t, t] && [t, t][..1] == [t];
    OneToken(t);
  }

  // A term's inverse document frequency is log(x), and its chunk is `a` times as long as the average.
  lemma {:induction false} InNumbers(log: Log, idx: Index, c: IndexedChunk, t: Term, x: real, a: real)
    requires Divisible(idx, c, t) && t in c.terms
    requires |idx.chunks| as real + 1.0 == x * (Get(idx.df, t) as real + 0.5)
    requires c.len as real * |idx.chunks| as real == a * idx.totalLen as real
    ensures c.terms[t] as real + 0.375 + 1.125 * a > 0.0
    ensures Contribution(log, idx, c, t)
      == log(x) * (2.5 * c.terms[t] as real) / (c.terms[t] as real + 0.375 + 1.125 * a)
  {
    var n, df, len := |idx.chunks| as real, Get(idx.df, t) as real, c.len as real;
    QuotientIs(n - df + 0.5, df + 0.5, x - 1.0);
    AverageIs(idx, len, a);
    QuotientIs(B * len, Average(idx), B * a);
  }

  lemma {:induction false} AverageIs(idx: Index, len: real, a: real)
    requires idx.totalLen > 0 && |idx.chunks| > 0 && len * |idx.chunks| as real == a * idx.totalLen as real
    ensures len == a * Average(idx)
  {
    var n, total := |idx.chunks| as real, idx.totalLen as real;
    QuotientIs(a * total, n, len);
    QuotientIs(a * total, n, a * (total / n));
  }

  lemma {:induction false} ScoreOfTwo(log: Log, idx: Index, c: IndexedChunk, t: Term, u: Term)
    requires t != u && Divisible(idx, c, t) && Divisible(idx, c, u)
    ensures Score(log, idx, c, {t, u}) == Contribution(log, idx, c, t) + Contribution(log, idx, c, u)
  {
    ScoreRemove(log, idx, c, {t, u}, t);
    assert {t, u} - {t} == {u};
    ScoreRemove(log, idx, c, {u}, u);
    assert {u} - {u} == {};
  }

  lemma {:induction false} SmallIndex(tokenize: Tokenizer, idx: Index, cs: seq<Chunk>)
    requires BuiltFrom(tokenize, idx, cs) && |cs| == 2
    requires tokenize(cs[0].content) == ["a", "a", "b"] && tokenize(cs[1].content) == ["b"]
    ensures |idx.chunks| == 2 && Get(idx.df, "a") == 1 && Get(idx.df, "b") == 2 && idx.totalLen == 4
    ensures idx.chunks[0] == IndexedChunk(cs[0], map["a" := 2, "b" := 1], 3)
    ensures idx.chunks[1] == IndexedChunk(cs[1], map["b" := 1], 1)
  {
    OneToken("b");
    ThreeTokens("a", "b");
    assert idx.chunks[0] == Indexed(tokenize, cs[0]) && idx.chunks[1] == Indexed(tokenize, cs[1]);
    assert Having(idx.chunks, 1, "a") == 1 && Having(idx.chunks, 1, "b") == 1;
    assert Counts(idx.df, "a", Having(idx.chunks, 2, "a")) && Counts(idx.df, "b", Having(idx.chunks, 2, "b"));
    assert Lengths(idx.chunks, 1) == 3;
  }

  /** A chunk "a a b" beside a chunk "b": the formula with its constants, and the sum over the terms. */
  lemma {:induction false} ScoresInNumbers(log: Log, tokenize: Tokenizer, idx: Index, cs: seq<Chunk>)
    requires BuiltFrom(tokenize, idx, cs) && |cs| == 2
    requires tokenize(cs[0].content) == ["a", "a", "b"] && tokenize(cs[1].content) == ["b"]
    ensures Scorable(idx) && |idx.chunks| == 2
    ensures Score(log, idx, idx.chunks[0], {"a", "b"}) == log(2.0) * 16.0 / 13.0 + log(1.2) * 40.0 / 49.0
    ensures Score(log, idx, idx.chunks[1], {"a", "b"}) == log(1.2) * 40.0 / 31.0
  {
    AllDivisible(tokenize, idx, cs);
    SmallIndex(tokenize, idx, cs);
    InNumbers(log, idx, idx.chunks[0], "a", 2.0, 1.5);
    InNumbers(log, idx, idx.chunks[0], "b", 1.2, 1.5);
    InNumbers(log, idx, idx.chunks[1], "b", 1.2, 0.5);
    ScoreOfTwo(log, idx, idx.chunks[0], "a", "b");
    ScoreOfTwo(log, idx, idx.chunks[1], "a", "b");
  }

  lemma {:induction false} OrderIndex(tokenize: Tokenizer, idx: Index, cs: seq<Chunk>)
    requires BuiltFrom(tokenize, idx, cs) && |cs| == 3
    requires tokenize(cs[0].content) == tokenize(cs[1].content) == ["order"] && tokenize(cs[2].content) == ["refund"]
    ensures |idx.chunks| == 3 && Get(idx.df, "order") == 2 && Get(idx.df, "refund") == 1 && idx.totalLen == 3
    ensures forall i :: 0 <= i < 3 ==>
      idx.chunks[i] == IndexedChunk(cs[i], if i < 2 then map["order" := 1] else map["refund" := 1], 1)
  {
    OneToken("order");
    OneToken("refund");
    assert forall i :: 0 <= i < 3 ==> idx.chunks[i] == Indexed(tokenize, cs[i]);
    assert Having(idx.chunks, 1, "order") == 1 && Having(idx.chunks, 2, "order") == 2;
    assert "refund" !in idx.chunks[0].terms && "refund" !in idx.chunks[1].terms;
    assert Having(idx.chunks, 1, "refund") == 0;
    assert Having(idx.chunks, 2, "refund") == 0;
    assert Counts(idx.df, "order", Having(idx.chunks, 3, "order"));
    assert Counts(idx.df, "refund", Having(idx.chunks, 3, "refund"));
    assert Lengths(idx.chunks, 1) == 1;
    assert Lengths(idx.chunks, 2) == 2;
  }

  // A chunk of one token, as long as the average, for a query with one more term.
  lemma {:induction false} OrderScore(log: Log, idx: Index, c: IndexedChunk, t: Term, u: Term, x: real)
    requires Divisible(idx, c, t) && c.terms == map[t := 1] && c.len == 1 && t != u
    requires idx.totalLen == |idx.chunks| && |idx.chunks| as real + 1.0 == x * (Get(idx.df, t) as real + 0.5)
    ensures Divisible(idx, c, u) && Score(log, idx, c, {t, u}) == log(x)
  {
    InNumbers(log, idx, c, t, x, 1.0);
    ScoreOfTwo(log, idx, c, t, u);
  }

  lemma {:induction false} FirstOf(p: Passage, q: Passage, r: Passage)
    requires r.score > q.score && r.score > p.score
    ensures Top(SortByScore([p, q, r]), 1) == [r]
  {
    assert [p, q, r][1..] == [q, r] && [q, r][1..] == [r] && [r][1..] == [];
    assert SortByScore([r]) == [r];
    assert Insert(q, [r]) == [r] + Insert(q, []);
    assert SortByScore([q, r]) == [r, q];
  }

  /** The rarer word wins: among "order", "order" and "refund" the best for "order refund" is the last. */
  lemma {:induction false} RarerWordIsFound(log: Log, tokenize: Tokenizer, idx: Index, cs: seq<Chunk>)
    requires PositiveAboveOne(log) && Increasing(log) && BuiltFrom(tokenize, idx, cs) && |cs| == 3
    requires tokenize(cs[0].content) == tokenize(cs[1].content) == ["order"] && tokenize(cs[2].content) == ["refund"]
    ensures Scorable(idx)
    ensures Found(log, idx, {"order", "refund"}, 1) == [PassageOf(cs[2], log(1.0 + 2.5 / 1.5))]
  {
    AllDivisible(tokenize, idx, cs);
    OrderIndex(tokenize, idx, cs);
    var terms := {"order", "refund"};
    assert 1.0 + 2.5 / 1.5 == 4.0 / 1.5 > 1.6;
    OrderScore(log, idx, idx.chunks[0], "order", "refund", 1.6);
    OrderScore(log, idx, idx.chunks[1], "order", "refund", 1.6);
    OrderScore(log, idx, idx.chunks[2], "refund", "order", 4.0 / 1.5);
    assert {"refund", "order"} == terms;
    var p, q, r := PassageOf(cs[0], log(1.6)), PassageOf(cs[1], log(1.6)), PassageOf(cs[2], log(4.0 / 1.5));
    assert Scored(log, idx, terms, 1) == [p];
    assert Scored(log, idx, terms, 2) == [p, q];
    assert Scored(log, idx, terms, 3) == [p, q, r];
    FirstOf(p, q, r);
  }

  method TermScore(log: Log, idx: Index, c: IndexedChunk, t: Term) returns (score: real)
    requires Divisible(idx, c, t)
    ensures score == Contribution(log, idx, c, t)
  {
    if t !in c.terms {
      return 0.0;
    }
    var n := |idx.chunks| as real;
    var avgdl := Average(idx);
    var tf := c.terms[t] as real;
    var df := Get(idx.df, t) as real;
    var idf := Idf(log, n, df);
    var denom := tf + Norm(c.len as real, avgdl);
    score := idf * (tf * (K1 + 1.0)) / denom;
  }

  // One chunk's score, its terms added up in any order.
  method ScoreChunk(log: Log, idx: Index, c: IndexedChunk, terms: set<Term>) returns (score: real)
    requires forall t :: t in terms ==> Divisible(idx, c, t)
    ensures score == Score(log, idx, c, terms)
  {
    score := 0.0;
    var todo := terms;
    while todo != {}
      invariant todo <= terms && score + Score(log, idx, c, todo) == Score(log, idx, c, terms)
      decreases |todo|
    {
      var t :| t in todo;
      ScoreRemove(log, idx, c, todo, t);
      var more := TermScore(log, idx, c, t);
      score := score + more;
      todo := todo - {t};
    }
  }

  method Search(log: Log, tokenize: Tokenizer, idx: Index, ghost cs: seq<Chunk>, query: string, n: nat)
      returns (found: seq<Passage>)
    requires BuiltFrom(tokenize, idx, cs)
    ensures Scorable(idx) && found == Found(log, idx, TermFreq(tokenize(query)).Keys, n)
  {
    AllDivisible(tokenize, idx, cs);
    if |idx.chunks| == 0 {
      return [];
    }
    var qTerms := CountTerms(tokenize(query));
    var scored: seq<Passage> := [];
    for i := 0 to |idx.chunks|
      invariant scored == Scored(log, idx, qTerms.Keys, i)
    {
      var c := idx.chunks[i];
      var score := ScoreChunk(log, idx, c, qTerms.Keys);
      if score > 0.0 {
        scored := scored + [PassageOf(c.chunk, score)];
      }
    }
    scored := SortByScore(scored);
    if |scored| > n {
      scored := scored[..n];
    }
    return scored;
  }
}
