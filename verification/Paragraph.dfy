/** The paragraphs of a text: what its blank lines separate, without the spaces around, and without empty ones. */
module Paragraph {
  import opened Lines
  import opened Text

  // strings.Split(s, "\n\n").
  function SplitBlank(s: string): (r: seq<string>)
    ensures |r| >= 1
  {
    if |s| >= 2 && s[0] == '\n' && s[1] == '\n' then [""] + SplitBlank(s[2..])
    else if s == "" then [""]
    else
      var rest := SplitBlank(s[1..]);
      [[s[0]] + rest[0]] + rest[1..]
  }

  function Trimmed(raw: seq<string>): (r: seq<string>)
    ensures forall i :: 0 <= i < |r| ==> r[i] != ""
  {
    if raw == [] then []
    else
      var p := TrimSpace(raw[|raw| - 1]);
      Trimmed(raw[..|raw| - 1]) + (if p == "" then [] else [p])
  }

  function Paragraphs(text: string): (r: seq<string>)
    ensures r != [] && (text != "" ==> forall i :: 0 <= i < |r| ==> r[i] != "")
  {
    var out := Trimmed(SplitBlank(text));
    if out == [] then [text] else out
  }

  function JoinBlank(pieces: seq<string>): string {
    if pieces == [] then ""
    else if |pieces| == 1 then pieces[0]
    else pieces[0] + "\n\n" + JoinBlank(pieces[1..])
  }

  predicate NoBlank(s: string) {
    forall i :: 0 < i < |s| ==> !(s[i - 1] == '\n' && s[i] == '\n')
  }

  lemma {:induction false} JoinBlankFirst(c: char, pieces: seq<string>)
    requires pieces != []
    ensures JoinBlank([[c] + pieces[0]] + pieces[1..]) == [c] + JoinBlank(pieces)
  {
    var more := [[c] + pieces[0]] + pieces[1..];
    assert more[1..] == pieces[1..];
  }

  lemma {:induction false} SplitIsLossless(s: string)
    ensures JoinBlank(SplitBlank(s)) == s
  {
    if |s| >= 2 && s[0] == '\n' && s[1] == '\n' {
      SplitIsLossless(s[2..]);
      JoinBlankMore("", SplitBlank(s[2..]));
      assert s == "\n\n" + s[2..];
    } else if s != "" {
      SplitIsLossless(s[1..]);
      JoinBlankFirst(s[0], SplitBlank(s[1..]));
    }
  }

  // Every piece ends where the first blank line after its beginning does, the last with the text.
  predicate CutLeftmost(pieces: seq<string>) {
    forall i :: 0 <= i < |pieces| ==> NoBlank(if i < |pieces| - 1 then pieces[i] + "\n" else pieces[i])
  }

  /** The text is cut exactly at its blank lines, from the left. */
  lemma {:induction false} SplitIsLeftmost(s: string)
    ensures JoinBlank(SplitBlank(s)) == s && CutLeftmost(SplitBlank(s))
  {
    SplitIsLossless(s);
    if |s| >= 2 && s[0] == '\n' && s[1] == '\n' {
      SplitIsLeftmost(s[2..]);
      CutBefore("", SplitBlank(s[2..]));
    } else if s != "" {
      var rest := SplitBlank(s[1..]);
      SplitIsLeftmost(s[1..]);
      FirstHasNoBlank(s, rest);
      if |rest| > 1 {
        CutBefore([s[0]] + rest[0], rest[1..]);
      }
    }
  }

  lemma {:induction false} CutBefore(p: string, pieces: seq<string>)
    requires pieces != [] && NoBlank(p + "\n")
    requires forall i :: 0 <= i < |pieces| ==> NoBlank(if i < |pieces| - 1 then pieces[i] + "\n" else pieces[i])
    ensures CutLeftmost([p] + pieces)
  {
  }

  lemma {:induction false} MoreHasNoBlank(c: char, s: string)
    requires NoBlank(s) && !(c == '\n' && s != "" && s[0] == '\n')
    ensures NoBlank([c] + s)
  {
    forall i | 0 < i < |[c] + s|
      ensures !(([c] + s)[i - 1] == '\n' && ([c] + s)[i] == '\n')
    {
      assert ([c] + s)[i] == s[i - 1];
      assert i > 1 ==> ([c] + s)[i - 1] == s[i - 2];
    }
  }

  lemma {:induction false} PrefixHasNoBlank(p: string, s: string)
    requires NoBlank(s) && p <= s
    ensures NoBlank(p)
  {
    assert forall i :: 0 <= i < |p| ==> p[i] == s[i];
  }

  lemma {:induction false} FirstHasNoBlank(s: string, rest: seq<string>)
    requires s != "" && !(|s| >= 2 && s[0] == '\n' && s[1] == '\n') && rest != [] && JoinBlank(rest) == s[1..]
    requires NoBlank(if |rest| == 1 then rest[0] else rest[0] + "\n")
    ensures NoBlank([s[0]] + rest[0]) && (|rest| > 1 ==> NoBlank([s[0]] + rest[0] + "\n"))
  {
    var tail := if |rest| == 1 then rest[0] else rest[0] + "\n";
    assert tail <= s[1..];
    MoreHasNoBlank(s[0], tail);
    PrefixHasNoBlank([s[0]] + rest[0], [s[0]] + tail);
    Regroup([s[0]], rest[0], "\n");
  }

  lemma {:induction false} InkOfPieces(raw: seq<string>, p: string)
    requires raw != []
    ensures Ink(JoinBlank(raw + [p])) == Ink(JoinBlank(raw)) + Ink(p)
  {
    if |raw| == 1 {
      JoinBlankMore(raw[0], [p]);
      assert [raw[0]] + [p] == raw + [p];
      InkOfGlue(raw[0], p);
    } else {
      var rest := raw[1..];
      InkOfPieces(rest, p);
      JoinBlankMore(raw[0], rest);
      JoinBlankMore(raw[0], rest + [p]);
      assert [raw[0]] + rest == raw;
      assert [raw[0]] + (rest + [p]) == raw + [p];
      InkOfGlue(raw[0], JoinBlank(rest + [p]));
      InkOfGlue(raw[0], JoinBlank(rest));
    }
  }

  lemma {:induction false} JoinBlankMore(s: string, pieces: seq<string>)
    requires pieces != []
    ensures JoinBlank([s] + pieces) == s + "\n\n" + JoinBlank(pieces)
  {
    assert ([s] + pieces)[1..] == pieces;
  }

  lemma {:induction false} InkOfGlue(s: string, t: string)
    ensures Ink(s + "\n\n" + t) == Ink(s) + Ink(t) == Ink(s + ("\n" + t))
  {
    InkOfSum(s + "\n\n", t);
    InkOfSum(s, "\n\n");
    InkOfSum(s, "\n" + t);
    InkOfSum("\n", t);
    assert "\n"[1..] == "" && "\n\n"[1..] == "\n";
  }

  lemma {:induction false} InkOfJoined(ps: seq<string>, p: string)
    ensures Ink(Join(ps + [p], '\n')) == Ink(Join(ps, '\n')) + Ink(p)
  {
    JoinLast(ps, p, '\n');
    InkOfGlue(Join(ps, '\n'), p);
  }

  lemma {:induction false} InkOfTrimmed(raw: seq<string>)
    ensures Ink(Join(Trimmed(raw), '\n')) == Ink(JoinBlank(raw))
  {
    if raw != [] {
      var front, last := raw[..|raw| - 1], raw[|raw| - 1];
      InkOfTrimmed(front);
      TrimKeepsInk(last);
      if TrimSpace(last) == "" {
        assert Trimmed(raw) == Trimmed(front);
      } else {
        InkOfJoined(Trimmed(front), TrimSpace(last));
      }
      LastPiece(front, last);
      assert front + [last] == raw;
    }
  }

  lemma {:induction false} LastPiece(front: seq<string>, last: string)
    ensures Ink(JoinBlank(front + [last])) == Ink(JoinBlank(front)) + Ink(last)
  {
    if front == [] {
      assert front + [last] == [last];
    } else {
      InkOfPieces(front, last);
    }
  }

  /** The paragraphs hold all of the text but spaces, in order. */
  lemma {:induction false} ParagraphsKeepInk(text: string)
    ensures Ink(Join(Paragraphs(text), '\n')) == Ink(text)
  {
    SplitIsLeftmost(text);
    InkOfTrimmed(SplitBlank(text));
  }

  lemma {:induction false} TrimmedStep(raw: seq<string>, i: nat)
    requires i < |raw|
    ensures Trimmed(raw[..i + 1]) == Trimmed(raw[..i]) + (if TrimSpace(raw[i]) == "" then [] else [TrimSpace(raw[i])])
  {
    assert raw[..i + 1][..i] == raw[..i];
  }

  method SplitParagraphs(text: string) returns (out: seq<string>)
    ensures out == Paragraphs(text)
  {
    var raw := SplitBlank(text);
    out := [];
    for i := 0 to |raw|
      invariant out == Trimmed(raw[..i])
    {
      TrimmedStep(raw, i);
      var p := TrimSpace(raw[i]);
      if p != "" {
        out := out + [p];
      }
    }
    assert raw[..|raw|] == raw;
    if |out| == 0 {
      return [text];
    }
  }

  // ---- texts of two lines ----

  predicate OneLine(s: string) {
    s != "" && !IsSpace(s[0]) && !IsSpace(s[|s| - 1]) && forall i :: 0 <= i < |s| ==> s[i] != '\n'
  }

  // What follows a first line, when the text is split.
  lemma {:induction false} SplitFirst(c: char, s: string)
    requires !(c == '\n' && s != "" && s[0] == '\n')
    ensures SplitBlank([c] + s) == [[c] + SplitBlank(s)[0]] + SplitBlank(s)[1..]
  {
    assert ([c] + s)[1..] == s;
  }

  lemma {:induction false} SplitAfterLine(p: string, rest: string)
    requires (forall i :: 0 <= i < |p| ==> p[i] != '\n') && (rest == "" || "\n\n" <= rest)
    ensures SplitBlank(p + rest) == [p] + (if rest == "" then [] else SplitBlank(rest[2..]))
    decreases |p|
  {
    if p == "" {
      assert p + rest == rest;
    } else {
      var tail := p[1..];
      SplitAfterLine(tail, rest);
      SplitFirst(p[0], tail + rest);
      Regroup([p[0]], tail, rest);
      assert [p[0]] + tail == p;
    }
  }

  lemma {:induction false} TwoParagraphs(p: string, q: string)
    requires OneLine(p) && OneLine(q)
    ensures Paragraphs(p + ("\n\n" + q)) == [p, q]
  {
    SplitAfterLine(p, "\n\n" + q);
    SplitAfterLine(q, "");
    assert ("\n\n" + q)[2..] == q && q + "" == q;
    assert [p, q][..1] == [p] && [p][..0] == [];
    assert Trimmed([p]) == [p];
  }

  lemma {:induction false} TwoLines(p: string, q: string, text: string)
    requires OneLine(p) && OneLine(q) && text == p + ("\n\n" + q)
    ensures text != "" && TrimSpace(text) == text
  {
    assert text[0] == p[0] && text[|text| - 1] == q[|q| - 1];
    assert TrimLeft(text) == text && TrimRight(text) == text;
  }
}
