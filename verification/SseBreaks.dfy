/**
 Any event stream the standard allows of this subset is read as it says: lines end in a line feed, alone or after
 a carriage return, and the data lines of one frame are joined by line feeds.
 */
module SseBreaks {
  import opened Prelude
  import Lines
  import opened SseStream

  predicate IsBreak(b: string) {
    b == "\n" || b == "\r\n"
  }

  // The lines of a frame, none of them empty.
  predicate FrameLines(lines: seq<string>) {
    lines != [] && forall i :: 0 <= i < |lines| ==> OneLine(lines[i]) && lines[i] != ""
  }

  function JoinLines(lines: seq<string>, b: string): string
    requires lines != []
  {
    if |lines| == 1 then lines[0] else lines[0] + (b + JoinLines(lines[1..], b))
  }

  // ---- one frame ----

  lemma {:induction false} BlankLineSplits(b: string, rest: string)
    requires IsBreak(b)
    ensures Split(b + (b + rest), BetweenFrames) == [""] + Split(rest, BetweenFrames)
  {
    var t := b + (b + rest);
    var n := |b|;
    assert t[n..] == b + rest;
    assert LineBreak(t) == n && LineBreak(t[n..]) == n;
    assert t[2 * n..] == rest;
    SplitBreak(t, BetweenFrames);
  }

  // A line break before a character that is none.
  lemma {:induction false} BreakStays(b: string, x: string)
    requires IsBreak(b) && x != "" && x[0] != '\r' && x[0] != '\n'
    ensures Split(b + x, BetweenFrames) == [b + Split(x, BetweenFrames)[0]] + Split(x, BetweenFrames)[1..]
    ensures Split(b + x, BetweenLines) == [""] + Split(x, BetweenLines)
  {
    var t := ['\n'] + x;
    assert t[1..] == x;
    SplitChar('\n', x, BetweenFrames);
    if b == "\n" {
      assert b + x == t;
      SplitBreak(t, BetweenLines);
    } else {
      assert b + x == ['\r'] + t && (b + x)[2..] == x;
      SplitChar('\r', t, BetweenFrames);
      assert ['\r'] + (['\n'] + Split(x, BetweenFrames)[0]) == b + Split(x, BetweenFrames)[0];
      SplitBreak(b + x, BetweenLines);
    }
  }

  lemma {:induction false} JoinBegins(lines: seq<string>, b: string)
    requires FrameLines(lines)
    ensures JoinLines(lines, b) != "" && JoinLines(lines, b)[0] == lines[0][0]
  {
  }

  lemma {:induction false} FrameSplits(lines: seq<string>, b: string, rest: string)
    requires FrameLines(lines) && IsBreak(b)
    ensures Split(JoinLines(lines, b) + (b + (b + rest)), BetweenFrames)
      == [JoinLines(lines, b)] + Split(rest, BetweenFrames)
  {
    var end, first := b + (b + rest), lines[0];
    if |lines| == 1 {
      BlankLineSplits(b, rest);
      OneLineGoesFirst(first, end, BetweenFrames);
      assert first + "" == first;
    } else {
      var more := JoinLines(lines[1..], b);
      FrameSplits(lines[1..], b, rest);
      JoinBegins(lines[1..], b);
      NextLine(first, more, b, end, rest);
      assert JoinLines(lines, b) + end == first + (b + (more + end));
    }
  }

  lemma {:induction false} NextLine(first: string, more: string, b: string, end: string, rest: string)
    requires OneLine(first) && IsBreak(b) && more != "" && more[0] != '\r' && more[0] != '\n'
    requires Split(more + end, BetweenFrames) == [more] + Split(rest, BetweenFrames)
    ensures Split(first + (b + (more + end)), BetweenFrames) == [first + (b + more)] + Split(rest, BetweenFrames)
  {
    BreakStays(b, more + end);
    OneLineGoesFirst(first, b + (more + end), BetweenFrames);
  }

  lemma {:induction false} LinesSplit(lines: seq<string>, b: string)
    requires FrameLines(lines) && IsBreak(b)
    ensures Split(JoinLines(lines, b), BetweenLines) == lines
  {
    var first := lines[0];
    if |lines| == 1 {
      OneLineGoesFirst(first, "", BetweenLines);
      assert first + "" == first;
    } else {
      LinesSplit(lines[1..], b);
      JoinBegins(lines[1..], b);
      BreakStays(b, JoinLines(lines[1..], b));
      OneLineGoesFirst(first, b + JoinLines(lines[1..], b), BetweenLines);
      assert first + "" == first;
    }
  }

  // ---- a stream ----

  // An event whose data is given line by line.
  datatype LongEvent = LongEvent(kind: string, data: seq<string>)

  predicate Readable(e: LongEvent) {
    OneLine(e.kind) && e.data != []
    && forall i :: 0 <= i < |e.data| ==> OneLine(e.data[i]) && (e.data[i] == "" || !JsSpace(e.data[i][0]))
  }

  function DataPart(data: seq<string>): (r: seq<string>)
    ensures |r| == |data| && forall i :: 0 <= i < |r| ==> r[i] == "data: " + data[i]
  {
    seq(|data|, i requires 0 <= i < |data| => "data: " + data[i])
  }

  function LinesOf(e: LongEvent): seq<string> {
    ["event: " + e.kind] + DataPart(e.data)
  }

  function LongStream(es: seq<LongEvent>, b: string): string {
    if es == [] then "" else JoinLines(LinesOf(es[0]), b) + (b + (b + LongStream(es[1..], b)))
  }

  function LongData(es: seq<LongEvent>): seq<string> {
    if es == [] then [] else [Lines.Join(es[0].data, '\n')] + LongData(es[1..])
  }

  lemma {:induction false} DataIsRead(data: seq<string>)
    requires forall i :: 0 <= i < |data| ==> data[i] == "" || !JsSpace(data[i][0])
    ensures DataLines(DataPart(data)) == data
  {
    if data != [] {
      var line := "data: " + data[0];
      DataIsRead(data[1..]);
      assert DataPart(data)[0] == line && DataPart(data)[1..] == DataPart(data[1..]);
      assert line[..5] == "data:" && line[5..] == " " + data[0];
      assert (" " + data[0])[1..] == data[0];
      assert TrimStart(line[5..]) == data[0];
    }
  }

  lemma {:induction false} KindIsSkipped(kind: string, rest: seq<string>)
    ensures DataLines(["event: " + kind] + rest) == DataLines(rest)
  {
    var head := "event: " + kind;
    assert head[0] == 'e' && "data:"[0] == 'd';
    assert ([head] + rest)[1..] == rest;
  }

  lemma {:induction false} EventIsRead(e: LongEvent, b: string)
    requires Readable(e) && IsBreak(b)
    ensures FrameLines(LinesOf(e)) && Payload(JoinLines(LinesOf(e), b)) == Some(Lines.Join(e.data, '\n'))
  {
    var lines := LinesOf(e);
    assert forall i :: 0 < i < |lines| ==> lines[i] == "data: " + e.data[i - 1];
    LinesSplit(lines, b);
    DataIsRead(e.data);
    KindIsSkipped(e.kind, DataPart(e.data));
  }

  lemma {:induction false} LongSplits(es: seq<LongEvent>, b: string)
    requires IsBreak(b) && forall i :: 0 <= i < |es| ==> Readable(es[i])
    ensures Last(Split(LongStream(es, b), BetweenFrames)) == ""
    ensures Payloads(Front(Split(LongStream(es, b), BetweenFrames))) == LongData(es)
  {
    if es != [] {
      var frame, rest := JoinLines(LinesOf(es[0]), b), Split(LongStream(es[1..], b), BetweenFrames);
      LongSplits(es[1..], b);
      EventIsRead(es[0], b);
      FrameSplits(LinesOf(es[0]), b, LongStream(es[1..], b));
      assert Front([frame] + rest) == [frame] + Front(rest);
      PayloadsAppend([frame], Front(rest));
    }
  }

  /** Whichever line breaks the sender uses, and however many data lines an event has, its data is delivered. */
  lemma {:induction false} AnyBreaksRoundTrip(es: seq<LongEvent>, b: string)
    requires IsBreak(b) && forall i :: 0 <= i < |es| ==> Readable(es[i])
    ensures Delivered(LongStream(es, b)) == LongData(es)
  {
    LongSplits(es, b);
  }
}
