/**
 The chunker packs greedily: a description of its chunks that does not follow the program, and that no other
 chunks meet.
 */
module ChunkPacking {
  import opened Lines
  import opened Paragraph
  import opened Text
  import opened Chunker

  // ---- what greedy packing is ----

  // Where the first j paragraphs end in the joined text.
  function End(ps: seq<string>, j: nat): nat
    requires j <= |ps|
  {
    if j == 0 then 0 else if j == 1 then |ps[0]| else End(ps, j - 1) + 1 + |ps[j - 1]|
  }

  predicate IsEnd(ps: seq<string>, e: nat) {
    exists j :: 0 < j <= |ps| && End(ps, j) == e
  }

  // A chunk goes on where the one before it ended, or after the separator there if nothing is repeated.
  function Resume(ps: seq<string>, e: nat, overlap: int): nat {
    if overlap <= 0 && IsEnd(ps, e) then e + 1 else e
  }

  // What chunk i adds begins here.
  function Start(ps: seq<string>, ends: seq<nat>, i: nat, overlap: int): nat
    requires i <= |ends|
  {
    if i == 0 then 0 else Resume(ps, ends[i - 1], overlap)
  }

  // Chunk i repeats the end of the one before it and adds the next piece of the text, within the size.
  predicate Placed(text: string, ps: seq<string>, chunks: seq<string>, ends: seq<nat>, i: nat, size: int, overlap: int)
    requires i < |ends| == |chunks|
  {
    var start := Start(ps, ends, i, overlap);
    && start < ends[i] <= |text| && |chunks[i]| <= size
    && chunks[i] == (if i == 0 then "" else TailRunes(chunks[i - 1], overlap)) + text[start..ends[i]]
  }

  // The paragraph after the piece that ends at e does not fit beside it.
  predicate NextOverruns(ps: seq<string>, e: nat, chunk: string, size: int) {
    exists j :: 0 < j < |ps| && End(ps, j) == e && |chunk| + 1 + |ps[j]| > size
  }

  // The piece ends inside a paragraph, fills its chunk, and holds no end of another paragraph.
  predicate CutsHard(ps: seq<string>, start: nat, e: nat, chunk: string, size: int) {
    |chunk| == size && !IsEnd(ps, e) && forall j :: 0 < j <= |ps| ==> !(start < End(ps, j) < e)
  }

  // Chunk i is closed for one of the two reasons there are.
  predicate Closed(ps: seq<string>, chunks: seq<string>, ends: seq<nat>, i: nat, size: int, overlap: int)
    requires i < |ends| == |chunks|
  {
    || NextOverruns(ps, ends[i], chunks[i], size)
    || CutsHard(ps, Start(ps, ends, i, overlap), ends[i], chunks[i], size)
  }

  // The first n chunks are in place and closed for a reason.
  predicate AllClosed(text: string, ps: seq<string>, chunks: seq<string>, ends: seq<nat>, n: nat, size: int,
      overlap: int)
    requires n <= |ends| == |chunks|
  {
    forall i: nat :: i < n ==>
      Placed(text, ps, chunks, ends, i, size, overlap) && Closed(ps, chunks, ends, i, size, overlap)
  }

  // The chunks take the text to its end, and each but the last is closed only when it must be.
  predicate Packs(text: string, ps: seq<string>, chunks: seq<string>, ends: seq<nat>, size: int, overlap: int) {
    && 0 < |ends| == |chunks| && ends[|ends| - 1] == |text|
    && AllClosed(text, ps, chunks, ends, |ends| - 1, size, overlap)
    && Placed(text, ps, chunks, ends, |ends| - 1, size, overlap)
  }

  ghost predicate Greedy(ps: seq<string>, chunks: seq<string>, size: int, overlap: int) {
    exists ends: seq<nat> :: Packs(Join(ps, '\n'), ps, chunks, ends, size, overlap)
  }

  // ---- positions ----

  lemma {:induction false} EndsGrow(ps: seq<string>, i: nat, j: nat)
    requires i < j <= |ps| && forall k :: 0 <= k < |ps| ==> ps[k] != ""
    ensures End(ps, i) < End(ps, j)
    decreases j
  {
    if i < j - 1 {
      EndsGrow(ps, i, j - 1);
    }
  }

  // Between two consecutive ends there is none.
  lemma {:induction false} NoEndBetween(ps: seq<string>, n: nat, e: nat)
    requires n < |ps| && (forall k :: 0 <= k < |ps| ==> ps[k] != "") && End(ps, n) < e < End(ps, n + 1)
    ensures !IsEnd(ps, e)
  {
    forall j | 0 < j <= |ps|
      ensures End(ps, j) != e
    {
      if j < n {
        EndsGrow(ps, j, n);
      } else if j > n + 1 {
        EndsGrow(ps, n + 1, j);
      }
    }
  }

  lemma {:induction false} NoneInside(ps: seq<string>, n: nat, start: nat, e: nat)
    requires n < |ps| && (forall k :: 0 <= k < |ps| ==> ps[k] != "") && End(ps, n) <= start && e < End(ps, n + 1)
    ensures forall j :: 0 < j <= |ps| ==> !(start < End(ps, j) < e)
  {
    forall j | 0 < j <= |ps|
      ensures !(start < End(ps, j) < e)
    {
      if j < n {
        EndsGrow(ps, j, n);
      } else if j > n + 1 {
        EndsGrow(ps, n + 1, j);
      }
    }
  }

  // The joined text, cut at the ends of the first n paragraphs and of the one after them.
  lemma {:induction false} JoinedAt(ps: seq<string>, n: nat)
    requires 0 < n <= |ps|
    ensures End(ps, n) == |Join(ps[..n], '\n')|
    ensures Join(ps[..n], '\n') <= Join(ps, '\n')
    decreases |ps| - n
  {
    EndIsLength(ps, n);
    if n == |ps| {
      assert ps[..n] == ps;
    } else {
      JoinNext(ps, n);
      JoinedAt(ps, n + 1);
    }
  }

  lemma {:induction false} EndIsLength(ps: seq<string>, n: nat)
    requires 0 < n <= |ps|
    ensures End(ps, n) == |Join(ps[..n], '\n')|
  {
    if n == 1 {
      assert ps[..1] == [ps[0]];
    } else {
      EndIsLength(ps, n - 1);
      JoinNext(ps, n - 1);
    }
  }

  lemma {:induction false} NextPiece(ps: seq<string>, n: nat)
    requires 0 < n < |ps|
    ensures End(ps, n) < End(ps, n + 1) <= |Join(ps, '\n')|
    ensures Join(ps, '\n')[End(ps, n)..End(ps, n + 1)] == "\n" + ps[n]
  {
    JoinedAt(ps, n);
    JoinedAt(ps, n + 1);
    JoinNext(ps, n);
    var text, before, after := Join(ps, '\n'), Join(ps[..n], '\n'), Join(ps[..n + 1], '\n');
    assert text[..|after|] == after;
    assert text[|before|..|after|] == after[|before|..];
  }

  // ---- the program packs greedily ----

  // The packing so far: closed chunks, and a chunk in hand that has got as far as e.
  predicate Packed(text: string, ps: seq<string>, st: Packing, ends: seq<nat>, e: nat, size: int, overlap: int) {
    && |ends| == |st.chunks| && AllClosed(text, ps, st.chunks, ends, |ends|, size, overlap)
    && var start := Start(ps, ends, |ends|, overlap);
       && start < e <= |text| && st.cur == Repeated(st.chunks, overlap) + text[start..e]
  }

  lemma {:induction false} OneMorePlaced(text: string, ps: seq<string>, st: Packing, ends: seq<nat>, e: nat, size: int,
      overlap: int)
    requires Packed(text, ps, st, ends, e, size, overlap) && |st.cur| <= size
    ensures AllClosed(text, ps, st.chunks + [st.cur], ends + [e], |ends|, size, overlap)
    ensures Start(ps, ends + [e], |ends|, overlap) == Start(ps, ends, |ends|, overlap)
    ensures Placed(text, ps, st.chunks + [st.cur], ends + [e], |ends|, size, overlap)
  {
    var chunks, more := st.chunks + [st.cur], ends + [e];
    forall i: nat | i < |ends|
      ensures Placed(text, ps, chunks, more, i, size, overlap) && Closed(ps, chunks, more, i, size, overlap)
    {
      assert Start(ps, more, i, overlap) == Start(ps, ends, i, overlap);
      assert Placed(text, ps, st.chunks, ends, i, size, overlap) && Closed(ps, st.chunks, ends, i, size, overlap);
    }
  }

  lemma {:induction false} OneMoreClosed(text: string, ps: seq<string>, st: Packing, ends: seq<nat>, e: nat, size: int,
      overlap: int)
    requires Packed(text, ps, st, ends, e, size, overlap) && |st.cur| <= size
    requires NextOverruns(ps, e, st.cur, size) || CutsHard(ps, Start(ps, ends, |ends|, overlap), e, st.cur, size)
    ensures AllClosed(text, ps, st.chunks + [st.cur], ends + [e], |ends| + 1, size, overlap)
    ensures Start(ps, ends + [e], |ends| + 1, overlap) == Resume(ps, e, overlap)
  {
    OneMorePlaced(text, ps, st, ends, e, size, overlap);
    NextClosed(text, ps, st.chunks + [st.cur], ends + [e], |ends|, size, overlap);
  }

  lemma {:induction false} NextClosed(text: string, ps: seq<string>, chunks: seq<string>, ends: seq<nat>, n: nat,
      size: int, overlap: int)
    requires n < |ends| == |chunks| && AllClosed(text, ps, chunks, ends, n, size, overlap)
    requires Placed(text, ps, chunks, ends, n, size, overlap) && Closed(ps, chunks, ends, n, size, overlap)
    ensures AllClosed(text, ps, chunks, ends, n + 1, size, overlap)
  {
  }

  // The last piece of paragraph n - 1, cut hard as long as it is too long.
  lemma {:induction false} HardCutPacks(text: string, ps: seq<string>, n: nat, st: Packing, ends: seq<nat>, size: int,
      overlap: int) returns (ends': seq<nat>)
    requires Valid(size, overlap) && n < |ps| && forall k :: 0 <= k < |ps| ==> ps[k] != ""
    requires Packed(text, ps, st, ends, End(ps, n + 1), size, overlap)
    requires |st.cur| > size ==> End(ps, n) <= Start(ps, ends, |ends|, overlap)
    ensures |HardCut(st, size, overlap).cur| <= size
    ensures Packed(text, ps, HardCut(st, size, overlap), ends', End(ps, n + 1), size, overlap)
    decreases |st.cur|
  {
    ends' := ends;
    if |st.cur| > size {
      var cut := CutRunes(st.cur, size);
      var next := Packing(st.chunks + [cut], TailRunes(cut, overlap) + st.cur[|cut|..]);
      var e := CutPacks(text, ps, n, st, ends, size, overlap);
      ends' := HardCutPacks(text, ps, n, next, ends + [e], size, overlap);
    }
  }

  lemma {:induction false} CutPacks(text: string, ps: seq<string>, n: nat, st: Packing, ends: seq<nat>, size: int,
      overlap: int) returns (e: nat)
    requires Valid(size, overlap) && n < |ps| && forall k :: 0 <= k < |ps| ==> ps[k] != ""
    requires Packed(text, ps, st, ends, End(ps, n + 1), size, overlap)
    requires |st.cur| > size && End(ps, n) <= Start(ps, ends, |ends|, overlap)
    requires |Repeated(st.chunks, overlap)| < size
    ensures
      var cut := st.cur[..size];
      Packed(text, ps, Packing(st.chunks + [cut], TailRunes(cut, overlap) + st.cur[size..]), ends + [e],
        End(ps, n + 1), size, overlap)
    ensures End(ps, n) <= Start(ps, ends + [e], |ends| + 1, overlap)
  {
    var start, rep := Start(ps, ends, |ends|, overlap), Repeated(st.chunks, overlap);
    e := start + size - |rep|;
    var cut := st.cur[..size];
    CutSlices(text, rep, start, End(ps, n + 1), size);
    CutInside(ps, n, start, e, cut, size);
    OneMoreClosed(text, ps, Packing(st.chunks, cut), ends, e, size, overlap);
    assert Repeated(st.chunks + [cut], overlap) == TailRunes(cut, overlap);
  }

  lemma {:induction false} CutSlices(text: string, rep: string, start: nat, end: nat, size: nat)
    requires |rep| < size && start < end <= |text| && |rep + text[start..end]| > size
    ensures start < start + size - |rep| < end
    ensures (rep + text[start..end])[..size] == rep + text[start..start + size - |rep|]
    ensures (rep + text[start..end])[size..] == text[start + size - |rep|..end]
  {
  }

  lemma {:induction false} CutInside(ps: seq<string>, n: nat, start: nat, e: nat, cut: string, size: int)
    requires n < |ps| && (forall k :: 0 <= k < |ps| ==> ps[k] != "") && End(ps, n) <= start < e < End(ps, n + 1)
    requires |cut| == size
    ensures CutsHard(ps, start, e, cut, size) && !IsEnd(ps, e)
  {
    NoEndBetween(ps, n, e);
    NoneInside(ps, n, start, e);
  }

  // The next paragraph beside the chunk in hand.
  lemma {:induction false} FittingPacks(text: string, ps: seq<string>, n: nat, st: Packing, ends: seq<nat>, size: int,
      overlap: int)
    requires 0 < n < |ps| && text == Join(ps, '\n') && Packed(text, ps, st, ends, End(ps, n), size, overlap)
    ensures Packed(text, ps, Append(st, ps[n]), ends, End(ps, n + 1), size, overlap)
  {
    NextPiece(ps, n);
    GrowSlice(text, Repeated(st.chunks, overlap), Start(ps, ends, |ends|, overlap), End(ps, n), End(ps, n + 1));
  }

  lemma {:induction false} GrowSlice(text: string, rep: string, start: nat, e: nat, e': nat)
    requires start <= e <= e' <= |text|
    ensures (rep + text[start..e]) + text[e..e'] == rep + text[start..e']
  {
  }

  // The next paragraph in a chunk of its own, after what that repeats.
  lemma {:induction false} ClosingPacks(text: string, ps: seq<string>, n: nat, st: Packing, ends: seq<nat>, size: int,
      overlap: int)
    requires Valid(size, overlap) && forall k :: 0 <= k < |ps| ==> ps[k] != ""
    requires 0 < n < |ps| && text == Join(ps, '\n') && Packed(text, ps, st, ends, End(ps, n), size, overlap)
    requires |st.cur| <= size && Overflows(st, ps[n], size)
    ensures
      var st' := Append(Close(st, ps[n], size, overlap), ps[n]);
      && Packed(text, ps, st', ends + [End(ps, n)], End(ps, n + 1), size, overlap)
      && End(ps, n) <= Start(ps, ends + [End(ps, n)], |ends| + 1, overlap)
  {
    NextPiece(ps, n);
    var e := End(ps, n);
    assert IsEnd(ps, e);
    OneMoreClosed(text, ps, st, ends, e, size, overlap);
    assert ("\n" + ps[n])[1..] == ps[n];
    assert text[e + 1..End(ps, n + 1)] == text[e..End(ps, n + 1)][1..];
  }

  lemma {:induction false} AddPacks(text: string, ps: seq<string>, n: nat, st: Packing, ends: seq<nat>, size: int,
      overlap: int) returns (ends': seq<nat>)
    requires Valid(size, overlap) && forall k :: 0 <= k < |ps| ==> ps[k] != ""
    requires 0 < n < |ps| && text == Join(ps, '\n') && Packed(text, ps, st, ends, End(ps, n), size, overlap)
    requires |st.cur| <= size
    ensures
      var st' := AddParagraph(st, ps[n], size, overlap);
      |st'.cur| <= size && Packed(text, ps, st', ends', End(ps, n + 1), size, overlap)
  {
    var before := Append(Close(st, ps[n], size, overlap), ps[n]);
    if Overflows(st, ps[n], size) {
      ClosingPacks(text, ps, n, st, ends, size, overlap);
      ends' := HardCutPacks(text, ps, n, before, ends + [End(ps, n)], size, overlap);
    } else {
      FittingPacks(text, ps, n, st, ends, size, overlap);
      ends' := HardCutPacks(text, ps, n, before, ends, size, overlap);
    }
  }

  lemma {:induction false} AllPack(text: string, ps: seq<string>, n: nat, size: int, overlap: int)
    returns (ends: seq<nat>)
    requires Valid(size, overlap) && forall k :: 0 <= k < |ps| ==> ps[k] != ""
    requires 0 < n <= |ps| && text == Join(ps, '\n')
    ensures
      var st := Pack(ps, n, size, overlap);
      |st.cur| <= size && Packed(text, ps, st, ends, End(ps, n), size, overlap)
  {
    if n == 1 {
      JoinedAt(ps, 1);
      assert ps[..1] == [ps[0]];
      var st := Append(Packing([], ""), ps[0]);
      assert Pack(ps, 0, size, overlap) == Packing([], "");
      assert Close(Packing([], ""), ps[0], size, overlap) == Packing([], "");
      ends := HardCutPacks(text, ps, 0, st, [], size, overlap);
    } else {
      var before := AllPack(text, ps, n - 1, size, overlap);
      ends := AddPacks(text, ps, n - 1, Pack(ps, n - 1, size, overlap), before, size, overlap);
    }
  }

  lemma {:induction false} ProgramIsGreedy(ps: seq<string>, size: int, overlap: int)
    requires Valid(size, overlap) && ps != [] && forall k :: 0 <= k < |ps| ==> ps[k] != ""
    ensures Greedy(ps, Chunks(Pack(ps, |ps|, size, overlap)), size, overlap)
  {
    var text := Join(ps, '\n');
    var ends := AllPack(text, ps, |ps|, size, overlap);
    var st := Pack(ps, |ps|, size, overlap);
    JoinedAt(ps, |ps|);
    assert ps[..|ps|] == ps;
    LastPacks(text, ps, st, ends, size, overlap);
  }

  lemma {:induction false} LastPacks(text: string, ps: seq<string>, st: Packing, ends: seq<nat>, size: int,
      overlap: int)
    requires |st.cur| <= size && Packed(text, ps, st, ends, |text|, size, overlap)
    ensures Packs(text, ps, Chunks(st), ends + [|text|], size, overlap)
  {
    OneMorePlaced(text, ps, st, ends, |text|, size, overlap);
  }

  // ---- nothing else is greedy ----

  // A chunk that can be taken as far as e' is not closed before.
  lemma {:induction false} GoesOn(ps: seq<string>, start: nat, e: nat, e': nat, chunk: string, chunk': string,
      size: int)
    requires (forall k :: 0 <= k < |ps| ==> ps[k] != "") && ps != [] && start < e <= End(ps, |ps|)
    requires e' <= End(ps, |ps|) && |chunk'| <= size && |chunk'| - e' == |chunk| - e
    requires e < End(ps, |ps|) ==> NextOverruns(ps, e, chunk, size) || CutsHard(ps, start, e, chunk, size)
    requires e' < End(ps, |ps|) ==> NextOverruns(ps, e', chunk', size) || CutsHard(ps, start, e', chunk', size)
    ensures e' <= e
  {
    assert IsEnd(ps, End(ps, |ps|));
    if e < e' {
      var j :| 0 < j < |ps| && End(ps, j) == e && |chunk| + 1 + |ps[j]| > size;
      NoEndBetween(ps, j, e');
    }
  }

  // Two ways to take the next piece are one.
  lemma {:induction false} SamePiece(text: string, ps: seq<string>, start: nat, e: nat, e': nat, rep: string,
      chunk: string, chunk': string, size: int)
    requires (forall k :: 0 <= k < |ps| ==> ps[k] != "") && ps != [] && |text| == End(ps, |ps|)
    requires start < e <= |text| && chunk == rep + text[start..e] && |chunk| <= size
    requires start < e' <= |text| && chunk' == rep + text[start..e'] && |chunk'| <= size
    requires e < |text| ==> NextOverruns(ps, e, chunk, size) || CutsHard(ps, start, e, chunk, size)
    requires e' < |text| ==> NextOverruns(ps, e', chunk', size) || CutsHard(ps, start, e', chunk', size)
    ensures e == e' && chunk == chunk'
  {
    GoesOn(ps, start, e, e', chunk, chunk', size);
    GoesOn(ps, start, e', e, chunk', chunk, size);
  }

  // Before the last chunk the text goes on.
  lemma {:induction false} EndsBefore(text: string, ps: seq<string>, chunks: seq<string>, ends: seq<nat>, n: nat,
      size: int, overlap: int)
    requires Packs(text, ps, chunks, ends, size, overlap) && n < |ends| - 1
    ensures ends[n] < |text|
  {
    assert Placed(text, ps, chunks, ends, n + 1, size, overlap);
  }

  lemma {:induction false} LastEnds(text: string, ps: seq<string>, chunks: seq<string>, ends: seq<nat>, n: nat,
      size: int, overlap: int)
    requires Packs(text, ps, chunks, ends, size, overlap) && n < |ends| && ends[n] == |text|
    ensures |ends| == n + 1
  {
    if n + 1 < |ends| {
      EndsBefore(text, ps, chunks, ends, n, size, overlap);
    }
  }

  lemma {:induction false} PieceAt(text: string, ps: seq<string>, chunks: seq<string>, ends: seq<nat>, n: nat,
      size: int, overlap: int)
    requires Packs(text, ps, chunks, ends, size, overlap) && n < |ends|
    ensures Placed(text, ps, chunks, ends, n, size, overlap)
    ensures ends[n] < |text| ==> Closed(ps, chunks, ends, n, size, overlap)
  {
  }

  lemma {:induction false} SameAt(text: string, ps: seq<string>, chunks: seq<string>, ends: seq<nat>,
      chunks': seq<string>, ends': seq<nat>, n: nat, size: int, overlap: int)
    requires (forall k :: 0 <= k < |ps| ==> ps[k] != "") && ps != [] && |text| == End(ps, |ps|)
    requires Packs(text, ps, chunks, ends, size, overlap) && Packs(text, ps, chunks', ends', size, overlap)
    requires n < |ends| && n < |ends'|
    ensures ends[n] == ends'[n] && chunks[n] == chunks'[n]
  {
    if n > 0 {
      SameAt(text, ps, chunks, ends, chunks', ends', n - 1, size, overlap);
    }
    PieceAt(text, ps, chunks, ends, n, size, overlap);
    PieceAt(text, ps, chunks', ends', n, size, overlap);
    SamePiece(text, ps, Start(ps, ends, n, overlap), ends[n], ends'[n],
      if n == 0 then "" else TailRunes(chunks[n - 1], overlap), chunks[n], chunks'[n], size);
  }

  lemma {:induction false} SameLength(text: string, ps: seq<string>, chunks: seq<string>, ends: seq<nat>,
      chunks': seq<string>, ends': seq<nat>, size: int, overlap: int)
    requires (forall k :: 0 <= k < |ps| ==> ps[k] != "") && ps != [] && |text| == End(ps, |ps|)
    requires Packs(text, ps, chunks, ends, size, overlap) && Packs(text, ps, chunks', ends', size, overlap)
    ensures |ends| >= |ends'|
  {
    var n := |ends| - 1;
    if n < |ends'| {
      SameAt(text, ps, chunks, ends, chunks', ends', n, size, overlap);
      LastEnds(text, ps, chunks', ends', n, size, overlap);
    }
  }

  /** There is one greedy packing. */
  lemma {:induction false} GreedyIsUnique(ps: seq<string>, chunks: seq<string>, chunks': seq<string>, size: int,
      overlap: int)
    requires (forall k :: 0 <= k < |ps| ==> ps[k] != "") && ps != []
    requires Greedy(ps, chunks, size, overlap) && Greedy(ps, chunks', size, overlap)
    ensures chunks == chunks'
  {
    var text := Join(ps, '\n');
    JoinedAt(ps, |ps|);
    assert ps[..|ps|] == ps;
    var ends: seq<nat> :| Packs(text, ps, chunks, ends, size, overlap);
    var ends': seq<nat> :| Packs(text, ps, chunks', ends', size, overlap);
    SameLength(text, ps, chunks, ends, chunks', ends', size, overlap);
    SameLength(text, ps, chunks', ends', chunks, ends, size, overlap);
    forall i | 0 <= i < |chunks|
      ensures chunks[i] == chunks'[i]
    {
      SameAt(text, ps, chunks, ends, chunks', ends', i, size, overlap);
    }
  }

  // ---- the theorems ----

  /**
   Exactly these are the chunks: each repeats the end of the one before it and takes the next piece of the joined
   paragraphs, up to their end; and each but the last is closed only where the next paragraph does not fit beside
   it, or because one long paragraph fills it.
   */
  lemma {:induction false} ChunksAreGreedyIff(text: string, size: int, overlap: int, chunks: seq<string>)
    requires TrimSpace(text) != ""
    ensures
      var s := if size <= 0 then 500 else size;
      var o := if overlap < 0 || overlap >= s then s / 5 else overlap;
      chunks == ChunksOf(text, size, overlap) <==> Greedy(Paragraphs(TrimSpace(text)), chunks, s, o)
  {
    var s, ps := EffectiveSize(size), Paragraphs(TrimSpace(text));
    var o := EffectiveOverlap(s, overlap);
    ProgramIsGreedy(ps, s, o);
    if Greedy(ps, chunks, s, o) {
      GreedyIsUnique(ps, chunks, ChunksOf(text, size, overlap), s, o);
    }
  }

  /** Paragraphs that together fit a chunk are one chunk, whatever the overlap. */
  lemma {:induction false} FittingTextIsOneChunk(text: string, size: int, overlap: int)
    requires TrimSpace(text) != "" && size > 0 && |Join(Paragraphs(TrimSpace(text)), '\n')| <= size
    ensures ChunksOf(text, size, overlap) == [Join(Paragraphs(TrimSpace(text)), '\n')]
  {
    var ps := Paragraphs(TrimSpace(text));
    var joined := Join(ps, '\n');
    JoinedAt(ps, |ps|);
    assert ps[..|ps|] == ps;
    EndsGrow(ps, 0, |ps|);
    var o := if overlap < 0 || overlap >= size then size / 5 else overlap;
    assert Placed(joined, ps, [joined], [|joined|], 0, size, o);
    assert Packs(joined, ps, [joined], [|joined|], size, o);
    ChunksAreGreedyIff(text, size, overlap, [joined]);
  }

  /** Two lines that fit a chunk together are one chunk, whatever the overlap. */
  lemma {:induction false} TwoLinesAreOneChunk(p: string, q: string, size: int, overlap: int, text: string)
    requires OneLine(p) && OneLine(q) && |p| + 1 + |q| <= size && text == p + ("\n\n" + q)
    ensures ChunksOf(text, size, overlap) == [p + ("\n" + q)]
  {
    TwoLines(p, q, text);
    TwoParagraphs(p, q);
    RebuildTwo(p, q);
    FittingTextIsOneChunk(text, size, overlap);
  }
}
