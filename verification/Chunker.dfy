/**
 Document chunking: paragraphs are packed greedily into chunks of at most `size` runes, and every chunk but
 the first begins with the last `overlap` runes of the one before.  A text is the sequence of its runes.
 ChunkText is the program's loop; Pack says what it computes, and the lemmas what the chunks promise.
 */
module Chunker {
  import opened Lines
  import opened Paragraph
  import opened Text

  // ---- runes ----

  function TailRunes(s: string, n: int): (r: string)
    ensures |r| == if n <= 0 then 0 else if |s| <= n then |s| else n
    ensures |r| <= |s| && r == s[|s| - |r|..]
  {
    if n <= 0 then "" else if |s| <= n then s else s[|s| - n..]
  }

  function CutRunes(s: string, n: nat): (r: string)
    ensures |r| == if |s| <= n then |s| else n
    ensures r <= s
  {
    if |s| <= n then s else s[..n]
  }

  // ---- packing ----

  datatype Packing = Packing(chunks: seq<string>, cur: string)

  predicate Valid(size: int, overlap: int) {
    0 <= overlap < size
  }

  // A paragraph that overruns a chunk is cut hard.
  function HardCut(st: Packing, size: int, overlap: int): Packing
    requires Valid(size, overlap)
    decreases |st.cur|
  {
    if |st.cur| <= size then st
    else
      var cut := CutRunes(st.cur, size);
      HardCut(Packing(st.chunks + [cut], TailRunes(cut, overlap) + st.cur[|cut|..]), size, overlap)
  }

  predicate Overflows(st: Packing, p: string, size: int) {
    |st.cur| > 0 && |st.cur| + |p| + 1 > size
  }

  // The chunk in hand is closed when the next paragraph does not fit beside it.
  function Close(st: Packing, p: string, size: int, overlap: int): Packing {
    if Overflows(st, p, size) then Packing(st.chunks + [st.cur], TailRunes(st.cur, overlap)) else st
  }

  // The separator is written unless the chunk in hand is empty.
  function Separator(st: Packing): string {
    if |st.cur| > 0 then "\n" else ""
  }

  function Append(st: Packing, p: string): Packing {
    st.(cur := st.cur + (Separator(st) + p))
  }

  function AddParagraph(st: Packing, p: string, size: int, overlap: int): Packing
    requires Valid(size, overlap)
  {
    HardCut(Append(Close(st, p, size, overlap), p), size, overlap)
  }

  // The first n paragraphs, packed.
  function Pack(ps: seq<string>, n: nat, size: int, overlap: int): Packing
    requires Valid(size, overlap) && n <= |ps|
  {
    if n == 0 then Packing([], "") else AddParagraph(Pack(ps, n - 1, size, overlap), ps[n - 1], size, overlap)
  }

  function Chunks(st: Packing): seq<string> {
    if |st.cur| > 0 then st.chunks + [st.cur] else st.chunks
  }

  // ---- the program ----

  function EffectiveSize(size: int): (r: int)
    ensures r > 0
  {
    if size <= 0 then 500 else size
  }

  function EffectiveOverlap(size: int, overlap: int): (r: int)
    requires size > 0
    ensures Valid(size, r)
  {
    if overlap < 0 || overlap >= size then size / 5 else overlap
  }

  function ChunksOf(text: string, size: int, overlap: int): seq<string> {
    var s := EffectiveSize(size);
    var t := TrimSpace(text);
    if t == "" then [] else
      var ps := Paragraphs(t);
      Chunks(Pack(ps, |ps|, s, EffectiveOverlap(s, overlap)))
  }

  // The inner loop of ChunkText.
  method CutHard(before: seq<string>, long: string, size: int, overlap: int) returns (chunks: seq<string>, cur: string)
    requires Valid(size, overlap)
    ensures Packing(chunks, cur) == HardCut(Packing(before, long), size, overlap)
  {
    chunks, cur := before, long;
    while |cur| > size
      invariant HardCut(Packing(chunks, cur), size, overlap) == HardCut(Packing(before, long), size, overlap)
      decreases |cur|
    {
      var s := cur;
      var cut := CutRunes(s, size);
      chunks := chunks + [cut];
      var rest := s[|cut|..];
      cur := TailRunes(cut, overlap);
      cur := cur + rest;
    }
  }

  // One paragraph: the body of the loop of ChunkText.
  method PackParagraph(before: seq<string>, hand: string, p: string, size: int, overlap: int)
    returns (chunks: seq<string>, cur: string)
    requires Valid(size, overlap)
    ensures Packing(chunks, cur) == AddParagraph(Packing(before, hand), p, size, overlap)
  {
    chunks, cur := before, hand;
    if |cur| > 0 && |cur| + |p| + 1 > size {
      chunks := chunks + [cur];
      var tail := TailRunes(cur, overlap);
      cur := tail;
    }
    ghost var closed := Packing(chunks, cur);
    assert closed == Close(Packing(before, hand), p, size, overlap);
    Regroup(cur, Separator(closed), p);
    if |cur| > 0 {
      cur := cur + "\n";
    }
    cur := cur + p;
    assert Packing(chunks, cur) == Append(closed, p);
    chunks, cur := CutHard(chunks, cur, size, overlap);
  }

  // The loop of ChunkText.
  method PackAll(paragraphs: seq<string>, size: int, overlap: int) returns (chunks: seq<string>)
    requires Valid(size, overlap)
    ensures chunks == Chunks(Pack(paragraphs, |paragraphs|, size, overlap))
  {
    chunks := [];
    var cur := "";
    for i := 0 to |paragraphs|
      invariant Packing(chunks, cur) == Pack(paragraphs, i, size, overlap)
    {
      chunks, cur := PackParagraph(chunks, cur, paragraphs[i], size, overlap);
    }
    if |cur| > 0 {
      chunks := chunks + [cur];
    }
  }

  method ChunkText(text: string, size: int, overlap: int) returns (chunks: seq<string>)
    ensures chunks == ChunksOf(text, size, overlap)
  {
    var size, overlap := size, overlap;
    if size <= 0 {
      size := 500;
    }
    if overlap < 0 || overlap >= size {
      overlap := size / 5;
    }

    var text := TrimSpace(text);
    if text == "" {
      return [];
    }
    var paragraphs := SplitParagraphs(text);
    chunks := PackAll(paragraphs, size, overlap);
  }

  // ---- what the chunks promise ----

  // What a chunk repeats of the one before it.
  function Repeated(chunks: seq<string>, overlap: int): string {
    if chunks == [] then "" else TailRunes(chunks[|chunks| - 1], overlap)
  }

  // Within the size, beginning with what it repeats, and adding at least one rune to it.
  predicate GoodChunk(chunk: string, before: seq<string>, size: int, overlap: int) {
    |Repeated(before, overlap)| < |chunk| <= size && Repeated(before, overlap) <= chunk
  }

  predicate GoodChunks(chunks: seq<string>, size: int, overlap: int) {
    chunks == [] ||
      var front := chunks[..|chunks| - 1];
      GoodChunks(front, size, overlap) && GoodChunk(chunks[|chunks| - 1], front, size, overlap)
  }

  // The chunks without what each repeats.
  function Rebuild(chunks: seq<string>, overlap: int): string {
    if chunks == [] then ""
    else
      var front, last := chunks[..|chunks| - 1], chunks[|chunks| - 1];
      var k := |Repeated(front, overlap)|;
      Rebuild(front, overlap) + (if k <= |last| then last[k..] else "")
  }

  // The chunk in hand repeats its part and adds something new.
  predicate InHand(st: Packing, overlap: int) {
    Repeated(st.chunks, overlap) <= st.cur && |Repeated(st.chunks, overlap)| < |st.cur|
  }

  predicate GoodPacking(st: Packing, size: int, overlap: int) {
    GoodChunks(st.chunks, size, overlap) && InHand(st, overlap)
  }

  // What the chunk in hand adds.
  function Fresh(st: Packing, overlap: int): string
    requires Repeated(st.chunks, overlap) <= st.cur
  {
    st.cur[|Repeated(st.chunks, overlap)|..]
  }

  function RebuildAll(st: Packing, overlap: int): string
    requires Repeated(st.chunks, overlap) <= st.cur
  {
    Rebuild(st.chunks, overlap) + Fresh(st, overlap)
  }

  lemma {:induction false} ClosingKeepsGood(chunks: seq<string>, chunk: string, size: int, overlap: int)
    requires GoodChunks(chunks, size, overlap) && GoodChunk(chunk, chunks, size, overlap)
    ensures GoodChunks(chunks + [chunk], size, overlap)
  {
    assert (chunks + [chunk])[..|chunks|] == chunks;
  }

  lemma {:induction false} RebuildLast(chunks: seq<string>, chunk: string, overlap: int)
    requires Repeated(chunks, overlap) <= chunk
    ensures Rebuild(chunks + [chunk], overlap) == RebuildAll(Packing(chunks, chunk), overlap)
  {
    assert (chunks + [chunk])[..|chunks|] == chunks;
  }

  lemma {:induction false} DropOfSum(x: string, y: string, k: nat)
    requires k <= |x|
    ensures (x + y)[k..] == x[k..] + y
  {
  }

  // One hard cut keeps every promise and loses nothing.
  lemma {:induction false} OneCutIsGood(st: Packing, next: Packing, size: int, overlap: int)
    requires Valid(size, overlap) && GoodPacking(st, size, overlap) && |st.cur| > size
    requires next == Packing(st.chunks + [st.cur[..size]], TailRunes(st.cur[..size], overlap) + st.cur[size..])
    ensures GoodPacking(next, size, overlap) && RebuildAll(next, overlap) == RebuildAll(st, overlap)
  {
    var cut, rest := st.cur[..size], st.cur[size..];
    assert st.cur == cut + rest;
    assert Repeated(next.chunks, overlap) == TailRunes(cut, overlap);
    assert GoodChunk(cut, st.chunks, size, overlap);
    ClosingKeepsGood(st.chunks, cut, size, overlap);
    CutLosesNothing(st.chunks, cut, rest, overlap);
  }

  lemma {:induction false} CutLosesNothing(chunks: seq<string>, cut: string, rest: string, overlap: int)
    requires Repeated(chunks, overlap) <= cut
    ensures Repeated(chunks, overlap) <= cut + rest
    ensures Repeated(chunks + [cut], overlap) <= TailRunes(cut, overlap) + rest
    ensures RebuildAll(Packing(chunks + [cut], TailRunes(cut, overlap) + rest), overlap)
         == RebuildAll(Packing(chunks, cut + rest), overlap)
  {
    var tail := TailRunes(cut, overlap);
    var k := |Repeated(chunks, overlap)|;
    var after, before := Packing(chunks + [cut], tail + rest), Packing(chunks, cut + rest);
    assert Repeated(chunks + [cut], overlap) == tail;
    DropOfSum(tail, rest, |tail|);
    assert Fresh(after, overlap) == rest;
    DropOfSum(cut, rest, k);
    assert Fresh(before, overlap) == cut[k..] + rest;
    RebuildLast(chunks, cut, overlap);
    Regroup(Rebuild(chunks, overlap), cut[k..], rest);
  }

  lemma {:induction false} HardCutIsGood(st: Packing, size: int, overlap: int)
    requires Valid(size, overlap) && GoodPacking(st, size, overlap)
    ensures
      var st' := HardCut(st, size, overlap);
      GoodPacking(st', size, overlap) && |st'.cur| <= size && RebuildAll(st', overlap) == RebuildAll(st, overlap)
    decreases |st.cur|
  {
    if |st.cur| > size {
      var cut := CutRunes(st.cur, size);
      var next := Packing(st.chunks + [cut], TailRunes(cut, overlap) + st.cur[|cut|..]);
      OneCutIsGood(st, next, size, overlap);
      HardCutIsGood(next, size, overlap);
    }
  }

  lemma {:induction false} PrefixOfSum(r: string, x: string, y: string)
    requires r <= x && y != ""
    ensures r <= x + y && |r| < |x + y|
  {
  }

  lemma {:induction false} AppendKeepsGood(st: Packing, p: string, size: int, overlap: int)
    requires GoodChunks(st.chunks, size, overlap) && Repeated(st.chunks, overlap) <= st.cur && p != ""
    ensures GoodPacking(Append(st, p), size, overlap)
  {
    PrefixOfSum(Repeated(st.chunks, overlap), st.cur, Separator(st) + p);
  }

  lemma {:induction false} AppendAdds(st: Packing, p: string, overlap: int)
    requires Repeated(st.chunks, overlap) <= st.cur && Repeated(st.chunks, overlap) <= Append(st, p).cur
    ensures RebuildAll(Append(st, p), overlap) == RebuildAll(st, overlap) + (Separator(st) + p)
  {
    var more, k := Separator(st) + p, |Repeated(st.chunks, overlap)|;
    DropOfSum(st.cur, more, k);
    Regroup(Rebuild(st.chunks, overlap), st.cur[k..], more);
  }

  lemma {:induction false} CloseIsGood(st: Packing, p: string, size: int, overlap: int)
    requires Valid(size, overlap) && GoodPacking(st, size, overlap) && |st.cur| <= size
    ensures
      var st' := Close(st, p, size, overlap);
      && GoodChunks(st'.chunks, size, overlap) && Repeated(st'.chunks, overlap) <= st'.cur
      && RebuildAll(st', overlap) == RebuildAll(st, overlap)
      && (st'.cur == "" <==> overlap == 0 && Overflows(st, p, size))
  {
    if Overflows(st, p, size) {
      var st' := Close(st, p, size, overlap);
      ClosingKeepsGood(st.chunks, st.cur, size, overlap);
      RebuildLast(st.chunks, st.cur, overlap);
      assert Fresh(st', overlap) == "";
    }
  }

  // How many of the first n paragraphs close a chunk before them.
  function Closings(ps: seq<string>, n: nat, size: int, overlap: int): nat
    requires Valid(size, overlap) && n <= |ps|
  {
    if n == 0 then 0
    else
      Closings(ps, n - 1, size, overlap)
      + (if Overflows(Pack(ps, n - 1, size, overlap), ps[n - 1], size) then 1 else 0)
  }

  lemma {:induction false} JoinNext(ps: seq<string>, n: nat)
    requires 0 < n < |ps|
    ensures Join(ps[..n + 1], '\n') == Join(ps[..n], '\n') + ("\n" + ps[n])
  {
    assert ps[..n + 1] == ps[..n] + [ps[n]];
    JoinLast(ps[..n], ps[n], '\n');
  }

  // One more paragraph: a separator goes before it, unless a chunk was closed and nothing is repeated.
  lemma {:induction false} AddIsGood(st: Packing, p: string, size: int, overlap: int)
    requires Valid(size, overlap) && GoodPacking(st, size, overlap) && |st.cur| <= size && p != ""
    ensures
      var st' := AddParagraph(st, p, size, overlap);
      && GoodPacking(st', size, overlap) && |st'.cur| <= size
      && RebuildAll(st', overlap)
         == RebuildAll(st, overlap) + ((if overlap == 0 && Overflows(st, p, size) then "" else "\n") + p)
  {
    CloseIsGood(st, p, size, overlap);
    var closed := Close(st, p, size, overlap);
    AppendKeepsGood(closed, p, size, overlap);
    AppendAdds(closed, p, overlap);
    HardCutIsGood(Append(closed, p), size, overlap);
  }

  lemma {:induction false} FirstIsGood(p: string, size: int, overlap: int)
    requires Valid(size, overlap) && p != ""
    ensures
      var st := AddParagraph(Packing([], ""), p, size, overlap);
      GoodPacking(st, size, overlap) && |st.cur| <= size && RebuildAll(st, overlap) == p
  {
    var st := Packing([], "");
    AppendKeepsGood(st, p, size, overlap);
    AppendAdds(st, p, overlap);
    assert RebuildAll(Append(st, p), overlap) == p;
    HardCutIsGood(Append(st, p), size, overlap);
  }

  // What is missing from the text: one separator for every chunk closed, when nothing is repeated.
  function Lost(ps: seq<string>, n: nat, size: int, overlap: int): nat
    requires Valid(size, overlap) && n <= |ps|
  {
    if overlap == 0 then Closings(ps, n, size, overlap) else 0
  }

  predicate Rebuilds(rebuilt: string, text: string, lost: nat) {
    |rebuilt| + lost == |text| && (lost == 0 ==> rebuilt == text)
  }

  lemma {:induction false} RebuildsMore(rebuilt: string, text: string, lost: nat, p: string, drop: bool)
    requires Rebuilds(rebuilt, text, lost)
    ensures Rebuilds(rebuilt + ((if drop then "" else "\n") + p), text + ("\n" + p), lost + if drop then 1 else 0)
  {
  }

  predicate PackedWell(ps: seq<string>, n: nat, size: int, overlap: int)
    requires Valid(size, overlap) && n <= |ps|
  {
    var st := Pack(ps, n, size, overlap);
    && GoodPacking(st, size, overlap) && |st.cur| <= size
    && Rebuilds(RebuildAll(st, overlap), Join(ps[..n], '\n'), Lost(ps, n, size, overlap))
  }

  lemma {:induction false} NextPacksWell(ps: seq<string>, n: nat, size: int, overlap: int)
    requires Valid(size, overlap) && 0 < n < |ps| && ps[n] != "" && PackedWell(ps, n, size, overlap)
    ensures PackedWell(ps, n + 1, size, overlap)
  {
    var st, p := Pack(ps, n, size, overlap), ps[n];
    JoinNext(ps, n);
    AddIsGood(st, p, size, overlap);
    var drop := overlap == 0 && Overflows(st, p, size);
    RebuildsMore(RebuildAll(st, overlap), Join(ps[..n], '\n'), Lost(ps, n, size, overlap), p, drop);
  }

  lemma {:induction false} FirstPacksWell(ps: seq<string>, size: int, overlap: int)
    requires Valid(size, overlap) && ps != [] && ps[0] != ""
    ensures PackedWell(ps, 1, size, overlap)
  {
    FirstIsGood(ps[0], size, overlap);
    var empty := Packing([], "");
    assert Pack(ps, 0, size, overlap) == empty && !Overflows(empty, ps[0], size);
    assert Pack(ps, 1, size, overlap) == AddParagraph(empty, ps[0], size, overlap);
    assert Closings(ps, 0, size, overlap) == 0 && Closings(ps, 1, size, overlap) == 0;
    assert ps[..1] == [ps[0]];
    assert Join([ps[0]], '\n') == ps[0];
  }

  lemma {:induction false} PackIsGood(ps: seq<string>, n: nat, size: int, overlap: int)
    requires Valid(size, overlap) && 0 < n <= |ps|
    requires forall i :: 0 <= i < |ps| ==> ps[i] != ""
    ensures PackedWell(ps, n, size, overlap)
  {
    if n == 1 {
      FirstPacksWell(ps, size, overlap);
    } else {
      PackIsGood(ps, n - 1, size, overlap);
      NextPacksWell(ps, n - 1, size, overlap);
    }
  }

  // ---- which texts lose nothing when nothing is repeated ----

  // What is left of a paragraph of n runes when whole chunks are cut off it.
  function Leftover(n: nat, size: int): nat
    requires size > 0
  {
    if n <= size then n else Leftover(n - size, size)
  }

  // The runes the last piece of the first paragraph and the next n - 1 take, with their separators.
  function Load(ps: seq<string>, n: nat, size: int): nat
    requires size > 0 && 0 < n <= |ps|
  {
    if n == 1 then Leftover(|ps[0]|, size) else Load(ps, n - 1, size) + 1 + |ps[n - 1]|
  }

  lemma {:induction false} HardCutLeaves(st: Packing, size: int)
    requires size > 0 && |st.cur| > 0
    ensures |HardCut(st, size, 0).cur| == Leftover(|st.cur|, size)
    decreases |st.cur|
  {
    if |st.cur| > size {
      var cut := CutRunes(st.cur, size);
      var next := Packing(st.chunks + [cut], TailRunes(cut, 0) + st.cur[|cut|..]);
      HardCutLeaves(next, size);
    }
  }

  lemma {:induction false} LeftoverFits(n: nat, size: int)
    requires size > 0
    ensures Leftover(n, size) <= size && (n > 0 ==> Leftover(n, size) > 0)
    decreases n
  {
    if n > size {
      LeftoverFits(n - size, size);
    }
  }

  // A paragraph that fits beside a chunk in hand is added to it uncut.
  lemma {:induction false} FittingAdds(st: Packing, p: string, size: int)
    requires size > 0 && |st.cur| > 0 && !Overflows(st, p, size)
    ensures |AddParagraph(st, p, size, 0).cur| == |st.cur| + 1 + |p|
  {
  }

  /** Without overlap a chunk is closed between two paragraphs exactly when they do not all fit in the one in hand. */
  lemma {:induction false} NothingClosedIff(ps: seq<string>, n: nat, size: int)
    requires size > 0 && 0 < n <= |ps|
    requires forall i :: 0 <= i < |ps| ==> ps[i] != ""
    ensures Closings(ps, n, size, 0) == 0 <==> Load(ps, n, size) <= size
    ensures Closings(ps, n, size, 0) == 0 ==> |Pack(ps, n, size, 0).cur| == Load(ps, n, size) > 0
  {
    var st, p := Pack(ps, n - 1, size, 0), ps[n - 1];
    if n == 1 {
      assert st == Packing([], "");
      HardCutLeaves(Append(st, p), size);
      LeftoverFits(|p|, size);
    } else {
      NothingClosedIff(ps, n - 1, size);
      if Closings(ps, n, size, 0) == 0 {
        FittingAdds(st, p, size);
      }
    }
  }

  // ---- the theorems ----

  lemma {:induction false} AllChunksAreGood(text: string, size: int, overlap: int)
    ensures
      var s := EffectiveSize(size);
      GoodChunks(ChunksOf(text, size, overlap), s, EffectiveOverlap(s, overlap))
    ensures ChunksOf(text, size, overlap) == [] <==> TrimSpace(text) == ""
  {
    var s, t := EffectiveSize(size), TrimSpace(text);
    var o := EffectiveOverlap(s, overlap);
    if t != "" {
      var ps := Paragraphs(t);
      PackIsGood(ps, |ps|, s, o);
      var st := Pack(ps, |ps|, s, o);
      ClosingKeepsGood(st.chunks, st.cur, s, o);
    }
  }

  lemma {:induction false} GoodChunkAt(chunks: seq<string>, i: nat, size: int, overlap: int)
    requires GoodChunks(chunks, size, overlap) && i < |chunks|
    ensures GoodAt(chunks, i, size, overlap)
    decreases |chunks|
  {
    if i < |chunks| - 1 {
      GoodChunkAt(chunks[..|chunks| - 1], i, size, overlap);
    }
  }

  // Non-empty, within the size, and beginning with the end of the chunk before it, to which it adds something.
  predicate GoodAt(chunks: seq<string>, i: nat, size: int, overlap: int)
    requires i < |chunks|
  {
    && 0 < |chunks[i]| <= size
    && (i > 0 ==> TailRunes(chunks[i - 1], overlap) <= chunks[i] && |TailRunes(chunks[i - 1], overlap)| < |chunks[i]|)
  }

  /**
   Every chunk is non-empty and within the size.  Every chunk but the first begins with the end of the one
   before it, as much of it as the overlap asks for, and adds at least one rune to that.
   */
  lemma {:induction false} ChunksAreGood(text: string, size: int, overlap: int, i: nat)
    requires i < |ChunksOf(text, size, overlap)|
    ensures GoodAt(ChunksOf(text, size, overlap), i, EffectiveSize(size),
      EffectiveOverlap(EffectiveSize(size), overlap))
  {
    var s := EffectiveSize(size);
    AllChunksAreGood(text, size, overlap);
    GoodChunkAt(ChunksOf(text, size, overlap), i, s, EffectiveOverlap(s, overlap));
  }

  /**
   The chunks without what they repeat are the trimmed paragraphs, joined by newlines, exactly when something
   is repeated, or all paragraphs after the first fit in the chunk that the first one ends in.
   */
  lemma {:induction false} ChunksRebuildTextIff(text: string, size: int, overlap: int)
    requires TrimSpace(text) != ""
    ensures
      var s, ps := EffectiveSize(size), Paragraphs(TrimSpace(text));
      var o := EffectiveOverlap(s, overlap);
      Rebuild(ChunksOf(text, size, overlap), o) == Join(ps, '\n') <==> o > 0 || Load(ps, |ps|, s) <= s
  {
    var s, ps := EffectiveSize(size), Paragraphs(TrimSpace(text));
    var o := EffectiveOverlap(s, overlap);
    var st := Pack(ps, |ps|, s, o);
    PackIsGood(ps, |ps|, s, o);
    assert ps[..|ps|] == ps;
    RebuildLast(st.chunks, st.cur, o);
    if o == 0 {
      NothingClosedIff(ps, |ps|, s);
    }
  }

  // ---- texts that are not rebuilt ----

  // Two paragraphs that each fit a chunk, but not one chunk together.
  lemma {:induction false} TwoChunks(p: string, q: string, size: int)
    requires p != "" && q != "" && |p| <= size && |q| <= size < |p| + 1 + |q|
    ensures Pack([p, q], 2, size, 0) == Packing([p], q)
  {
    var ps := [p, q];
    assert Pack(ps, 0, size, 0) == Packing([], "");
    assert AddParagraph(Packing([], ""), p, size, 0) == Packing([], p);
    assert Pack(ps, 1, size, 0) == Packing([], p);
    assert AddParagraph(Packing([], p), q, size, 0) == Packing([p], q);
  }

  lemma {:induction false} RebuildTwo(p: string, q: string)
    ensures Rebuild([p, q], 0) == p + q && Join([p, q], '\n') == p + ("\n" + q)
  {
    assert [p, q][..1] == [p] && [p][..0] == [];
    assert Rebuild([p], 0) == p;
    assert [p] + [q] == [p, q];
    JoinLast([p], q, '\n');
    assert Join([p], '\n') == p;
  }

  /** Texts that are not rebuilt: without overlap, two paragraphs that do not fit together lose what separates them. */
  lemma {:induction false} SeparatorIsLost(p: string, q: string, size: int, text: string)
    requires OneLine(p) && OneLine(q) && |p| <= size && |q| <= size < |p| + 1 + |q|
    requires text == p + ("\n\n" + q)
    ensures TrimSpace(text) == text && Join(Paragraphs(text), '\n') == p + ("\n" + q)
    ensures ChunksOf(text, size, 0) == [p, q] && Rebuild([p, q], 0) == p + q
  {
    TwoLines(p, q, text);
    TwoParagraphs(p, q);
    TwoChunks(p, q, size);
    RebuildTwo(p, q);
  }
}
