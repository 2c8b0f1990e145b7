/**
 The event stream of a chat: the server writes one frame per event, the browser reads the text in whatever
 pieces it arrives and takes complete frames off a buffer.  This is the subset of section 9.2.6 of the WHATWG
 HTML Living Standard that the two sides use.
 */
module SseStream {
  import opened Prelude
  import Lines

  // ---- the separators: /\r?\n/ between lines, /\r?\n\r?\n/ between frames ----

  datatype Separator = BetweenLines | BetweenFrames

  // The length of the line break the text begins with, 0 if there is none.
  function LineBreak(s: string): (n: nat)
    ensures n <= |s|
  {
    if |s| >= 1 && s[0] == '\n' then 1
    else if |s| >= 2 && s[0] == '\r' && s[1] == '\n' then 2
    else 0
  }

  function FrameBreak(s: string): (n: nat)
    ensures n <= |s|
  {
    var first := LineBreak(s);
    var second := LineBreak(s[first..]);
    if first > 0 && second > 0 then first + second else 0
  }

  function Break(s: string, sep: Separator): (n: nat)
    ensures n <= |s|
  {
    if sep.BetweenLines? then LineBreak(s) else FrameBreak(s)
  }

  // The text split at each separator, leftmost first.
  function Split(s: string, sep: Separator): (r: seq<string>)
    ensures |r| >= 1
    decreases |s|
  {
    if s == "" then [""]
    else if Break(s, sep) > 0 then [""] + Split(s[Break(s, sep)..], sep)
    else
      var rest := Split(s[1..], sep);
      [[s[0]] + rest[0]] + rest[1..]
  }

  function Front(r: seq<string>): seq<string>
    requires r != []
  {
    r[..|r| - 1]
  }

  function Last(r: seq<string>): string
    requires r != []
  {
    r[|r| - 1]
  }

  // ---- one step of a split ----

  lemma {:induction false} SplitChar(c: char, rest: string, sep: Separator)
    requires Break([c] + rest, sep) == 0
    ensures Split([c] + rest, sep) == [[c] + Split(rest, sep)[0]] + Split(rest, sep)[1..]
  {
    assert ([c] + rest)[1..] == rest;
  }

  lemma {:induction false} SplitBreak(s: string, sep: Separator)
    requires Break(s, sep) > 0
    ensures Split(s, sep) == [""] + Split(s[Break(s, sep)..], sep)
  {
  }

  lemma {:induction false} WholeText(s: string, sep: Separator)
    requires |Split(s, sep)| == 1
    ensures Split(s, sep) == [s]
    decreases |s|
  {
    if s != "" {
      assert s == [s[0]] + s[1..];
      SplitChar(s[0], s[1..], sep);
      WholeText(s[1..], sep);
    }
  }

  lemma {:induction false} StillWhole(c: char, rest: string, s: string, sep: Separator)
    requires s == [c] + rest && Break(s, sep) == 0 && Split(rest, sep) == [rest]
    ensures Split(s, sep) == [s]
  {
    SplitChar(c, rest, sep);
  }

  // No separator begins at or after this index.
  predicate Unbroken(s: string, i: nat, sep: Separator)
    decreases |s| - i
  {
    i >= |s| || (Break(s[i..], sep) == 0 && Unbroken(s, i + 1, sep))
  }

  lemma {:induction false} NothingToSplit(s: string, i: nat, sep: Separator)
    requires i <= |s| && Unbroken(s, i, sep)
    ensures Split(s[i..], sep) == [s[i..]]
    decreases |s| - i
  {
    if i < |s| {
      NothingToSplit(s, i + 1, sep);
      StillWhole(s[i], s[i + 1..], s[i..], sep);
    }
  }

  // ---- splitting what has arrived, and then the rest ----

  // A frame break ends in the second of two newlines; what stands beside them is a carriage return.
  lemma {:induction false} BreakHasTwoNewlines(t: string)
    requires FrameBreak(t) > 0
    ensures
      var i, j := LineBreak(t) - 1, FrameBreak(t) - 1;
      0 <= i < j < |t| && t[i] == '\n' && t[j] == '\n' && forall k :: 0 <= k < j && k != i ==> t[k] == '\r'
  {
    var i := LineBreak(t);
    assert t[i..][0] == t[i];
  }

  // A separator that has arrived whole is the same one when more follows.
  lemma {:induction false} BreakIsStable(x: string, y: string)
    requires FrameBreak(x) > 0 || 0 < FrameBreak(x + y) <= |x|
    ensures FrameBreak(x + y) == FrameBreak(x) > 0
  {
    var n := LineBreak(x + y);
    assert LineBreak(x) == n;
    assert (x + y)[n..] == x[n..] + y;
  }

  // A text with one newline at most, all else carriage returns, is not broken.
  lemma {:induction false} OneNewline(x: string, a: nat, i: nat)
    requires forall k :: 0 <= k < |x| && k != a ==> x[k] == '\r'
    ensures Unbroken(x, i, BetweenFrames)
    decreases |x| - i
  {
    if i < |x| {
      OneNewline(x, a, i + 1);
      if FrameBreak(x[i..]) > 0 {
        BreakHasTwoNewlines(x[i..]);
      }
    }
  }

  // A text that only more text makes a separator is not split.
  lemma {:induction false} PartOfBreak(x: string, y: string)
    requires x != "" && FrameBreak(x + y) > |x|
    ensures Split(x, BetweenFrames) == [x]
  {
    BreakHasTwoNewlines(x + y);
    assert forall k :: 0 <= k < |x| ==> x[k] == (x + y)[k];
    OneNewline(x, LineBreak(x + y) - 1, 0);
    NothingToSplit(x, 0, BetweenFrames);
    assert x[0..] == x;
  }

  // Splitting x, and going on from its last piece, splits x + y.
  predicate Resumes(x: string, y: string) {
    Split(x + y, BetweenFrames)
      == Front(Split(x, BetweenFrames)) + Split(Last(Split(x, BetweenFrames)) + y, BetweenFrames)
  }

  lemma {:induction false} ResumesUnsplit(x: string, y: string)
    requires Split(x, BetweenFrames) == [x]
    ensures Resumes(x, y)
  {
    assert Front([x]) == [] && Last([x]) == x;
  }

  lemma {:induction false} FrontOfLonger(first: string, rest: seq<string>, more: seq<string>)
    requires rest != []
    ensures Last([first] + rest) == Last(rest)
    ensures [first] + (Front(rest) + more) == Front([first] + rest) + more
  {
    assert Front([first] + rest) == [first] + Front(rest);
  }

  lemma {:induction false} ResumesAfterBreak(x: string, y: string)
    requires FrameBreak(x) > 0 && Resumes(x[FrameBreak(x)..], y)
    ensures Resumes(x, y)
  {
    var n := FrameBreak(x);
    var rest := Split(x[n..], BetweenFrames);
    BreakIsStable(x, y);
    assert (x + y)[n..] == x[n..] + y;
    SplitBreak(x, BetweenFrames);
    SplitBreak(x + y, BetweenFrames);
    FrontOfLonger("", rest, Split(Last(rest) + y, BetweenFrames));
  }

  // The same splits with a character put before their first pieces.
  lemma {:induction false} FrontOfPrefixed(c: char, rest: seq<string>, more: seq<string>, whole: seq<string>)
    requires |rest| > 1 && whole == Front(rest) + more
    ensures
      var longer := [[c] + rest[0]] + rest[1..];
      [[c] + whole[0]] + whole[1..] == Front(longer) + more && Last(longer) == Last(rest)
  {
    var longer := [[c] + rest[0]] + rest[1..];
    assert Front(longer) == [[c] + rest[0]] + Front(rest)[1..];
    assert whole[1..] == Front(rest)[1..] + more;
  }

  lemma {:induction false} ResumesAfterChar(c: char, t: string, ty: string, x: string, xy: string, y: string)
    requires Split(x, BetweenFrames) == [[c] + Split(t, BetweenFrames)[0]] + Split(t, BetweenFrames)[1..]
    requires Split(xy, BetweenFrames) == [[c] + Split(ty, BetweenFrames)[0]] + Split(ty, BetweenFrames)[1..]
    requires Split(ty, BetweenFrames)
      == Front(Split(t, BetweenFrames)) + Split(Last(Split(t, BetweenFrames)) + y, BetweenFrames)
    requires |Split(t, BetweenFrames)| > 1
    ensures Split(xy, BetweenFrames)
      == Front(Split(x, BetweenFrames)) + Split(Last(Split(x, BetweenFrames)) + y, BetweenFrames)
  {
    var rest := Split(t, BetweenFrames);
    FrontOfPrefixed(c, rest, Split(Last(rest) + y, BetweenFrames), Split(ty, BetweenFrames));
  }

  /** Splitting what has arrived, and going on from its last piece, splits the whole: for all texts and all cuts. */
  lemma {:induction false} SplitResumes(x: string, y: string)
    ensures Resumes(x, y)
    decreases |x|
  {
    if x == "" || |Split(x, BetweenFrames)| == 1 {
      WholeText(x, BetweenFrames);
      ResumesUnsplit(x, y);
    } else if FrameBreak(x) > 0 {
      SplitResumes(x[FrameBreak(x)..], y);
      ResumesAfterBreak(x, y);
    } else if FrameBreak(x + y) > |x| {
      PartOfBreak(x, y);
      ResumesUnsplit(x, y);
    } else {
      if FrameBreak(x + y) > 0 {
        BreakIsStable(x, y);
      }
      var c, t := x[0], x[1..];
      assert x == [c] + t && x + y == [c] + (t + y);
      SplitChar(c, t, BetweenFrames);
      SplitChar(c, t + y, BetweenFrames);
      SplitResumes(t, y);
      ResumesAfterChar(c, t, t + y, x, x + y, y);
    }
  }

  // ---- the reader ----

  // Array.prototype.trimStart removes these.
  predicate JsSpace(c: char) {
    || '\t' <= c <= '\r' || c == ' ' || c == '\U{00A0}' || c == '\U{FEFF}' || c == '\U{1680}'
    || '\U{2000}' <= c <= '\U{200A}' || c == '\U{2028}' || c == '\U{2029}' || c == '\U{202F}'
    || c == '\U{205F}' || c == '\U{3000}'
  }

  function TrimStart(s: string): string {
    if s != "" && JsSpace(s[0]) then TrimStart(s[1..]) else s
  }

  predicate Blank(s: string) {
    forall i :: 0 <= i < |s| ==> JsSpace(s[i])
  }

  function DataLines(lines: seq<string>): seq<string> {
    if lines == [] then []
    else (if "data:" <= lines[0] then [TrimStart(lines[0][5..])] else []) + DataLines(lines[1..])
  }

  // What a frame delivers: its data lines, joined; nothing if it has none.
  function Payload(frame: string): Option<string> {
    var data := DataLines(Split(frame, BetweenLines));
    if data == [] then None else Some(Lines.Join(data, '\n'))
  }

  function Payloads(frames: seq<string>): seq<string> {
    if frames == [] then []
    else (match Payload(frames[0]) case Some(p) => [p] case None => []) + Payloads(frames[1..])
  }

  lemma {:induction false} PayloadsAppend(a: seq<string>, b: seq<string>)
    ensures Payloads(a + b) == Payloads(a) + Payloads(b)
  {
    if a == [] {
      assert a + b == b;
    } else {
      assert (a + b)[1..] == a[1..] + b;
      PayloadsAppend(a[1..], b);
    }
  }

  // What one reading of the whole text delivers, with what is left at its end.
  function Delivered(text: string): seq<string> {
    var r := Split(text, BetweenFrames);
    Payloads(Front(r)) + (if Blank(Last(r)) then [] else Payloads([Last(r)]))
  }

  function Whole(chunks: seq<string>, n: nat): string
    requires n <= |chunks|
  {
    if n == 0 then "" else Whole(chunks, n - 1) + chunks[n - 1]
  }

  method ConsumeFrame(frame: string) returns (delivered: seq<string>)
    ensures delivered == Payloads([frame])
  {
    var data := DataLines(Split(frame, BetweenLines));
    if |data| == 0 {
      return [];
    }
    return [Lines.Join(data, '\n')];
  }

  // The reader has been through `arrived`: it holds the last piece, and has delivered the others.
  predicate Reading(arrived: string, buffer: string, delivered: seq<string>) {
    var r := Split(arrived, BetweenFrames);
    buffer == Last(r) && delivered == Payloads(Front(r))
  }

  lemma {:induction false} ReadingOn(arrived: string, buffer: string, delivered: seq<string>, chunk: string)
    requires Reading(arrived, buffer, delivered)
    ensures
      var frames := Split(buffer + chunk, BetweenFrames);
      Reading(arrived + chunk, Last(frames), delivered + Payloads(Front(frames)))
  {
    var r, frames := Split(arrived, BetweenFrames), Split(buffer + chunk, BetweenFrames);
    SplitResumes(arrived, chunk);
    assert Front(Front(r) + frames) == Front(r) + Front(frames) && Last(Front(r) + frames) == Last(frames);
    PayloadsAppend(Front(r), Front(frames));
  }

  method ConsumeAll(frames: seq<string>) returns (delivered: seq<string>)
    ensures delivered == Payloads(frames)
  {
    delivered := [];
    for i := 0 to |frames|
      invariant delivered == Payloads(frames[..i])
    {
      assert frames[..i + 1] == frames[..i] + [frames[i]];
      PayloadsAppend(frames[..i], [frames[i]]);
      var more := ConsumeFrame(frames[i]);
      delivered := delivered + more;
    }
    assert frames[..|frames|] == frames;
  }

  /** However the stream is cut into reads, the reader delivers what one reading of the whole would. */
  method StreamChat(chunks: seq<string>) returns (delivered: seq<string>)
    ensures delivered == Delivered(Whole(chunks, |chunks|))
  {
    delivered := [];
    var buffer := "";
    for i := 0 to |chunks|
      invariant Reading(Whole(chunks, i), buffer, delivered)
    {
      ReadingOn(Whole(chunks, i), buffer, delivered, chunks[i]);
      buffer := buffer + chunks[i];
      var frames := Split(buffer, BetweenFrames);
      buffer := frames[|frames| - 1];
      frames := frames[..|frames| - 1];
      var more := ConsumeAll(frames);
      delivered := delivered + more;
    }
    if !Blank(buffer) {
      var more := ConsumeFrame(buffer);
      delivered := delivered + more;
    }
  }

  // ---- the writer ----

  datatype Event = Event(kind: string, data: string)

  predicate OneLine(s: string) {
    forall i :: 0 <= i < |s| ==> s[i] != '\r' && s[i] != '\n'
  }

  // Event kinds are fixed one-line words, and JSON text has no raw line break and begins with no space.
  predicate Writable(e: Event) {
    OneLine(e.kind) && OneLine(e.data) && e.data != "" && !JsSpace(e.data[0])
  }

  function FrameOf(e: Event): string {
    ("event: " + e.kind) + ("\n" + ("data: " + e.data))
  }

  function Written(e: Event): string {
    FrameOf(e) + "\n\n"
  }

  function Stream(es: seq<Event>): string {
    if es == [] then "" else Written(es[0]) + Stream(es[1..])
  }

  function DataOf(es: seq<Event>): seq<string> {
    if es == [] then [] else [es[0].data] + DataOf(es[1..])
  }

  lemma {:induction false} CharGoesFirst(c: char, q: string, tail: string, text: string, r: seq<string>, sep: Separator)
    requires text == [c] + tail && c != '\r' && c != '\n' && r != [] && Split(tail, sep) == [q + r[0]] + r[1..]
    ensures Split(text, sep) == [([c] + q) + r[0]] + r[1..]
  {
    SplitChar(c, tail, sep);
    assert [c] + (q + r[0]) == ([c] + q) + r[0];
  }

  // A stretch without line breaks goes to the first piece.
  lemma {:induction false} OneLineGoesFirst(p: string, rest: string, sep: Separator)
    requires OneLine(p)
    ensures Split(p + rest, sep) == [p + Split(rest, sep)[0]] + Split(rest, sep)[1..]
  {
    if p == "" {
      assert p + rest == rest && p + Split(rest, sep)[0] == Split(rest, sep)[0];
    } else {
      var c, q := p[0], p[1..];
      OneLineGoesFirst(q, rest, sep);
      assert p == [c] + q && p + rest == [c] + (q + rest);
      CharGoesFirst(c, q, q + rest, p + rest, Split(rest, sep), sep);
    }
  }

  lemma {:induction false} TwoNewlines(rest: string)
    ensures Split("\n\n" + rest, BetweenFrames) == [""] + Split(rest, BetweenFrames)
  {
    var t := "\n\n" + rest;
    assert t[1..][0] == '\n';
    assert FrameBreak(t) == 2 && t[2..] == rest;
    SplitBreak(t, BetweenFrames);
  }

  // Two lines and an empty one, then the rest.
  lemma {:induction false} TwoLinesSplitOff(head: string, data: string, rest: string)
    requires OneLine(head) && OneLine(data) && data != ""
    ensures Split(head + ("\n" + (data + ("\n\n" + rest))), BetweenFrames)
      == [head + ("\n" + data)] + Split(rest, BetweenFrames)
  {
    var tail := "\n\n" + rest;
    TwoNewlines(rest);
    OneLineGoesFirst(data, tail, BetweenFrames);
    assert data + "" == data;
    var line := data + tail;
    assert Split(line, BetweenFrames) == [data] + Split(rest, BetweenFrames);
    assert (['\n'] + line)[1..] == line && line[0] == data[0];
    SplitChar('\n', line, BetweenFrames);
    OneLineGoesFirst(head, "\n" + line, BetweenFrames);
  }

  lemma {:induction false} FrameIsSplitOff(e: Event, rest: string)
    requires Writable(e)
    ensures Split(Written(e) + rest, BetweenFrames) == [FrameOf(e)] + Split(rest, BetweenFrames)
  {
    var head, data := "event: " + e.kind, "data: " + e.data;
    TwoLinesSplitOff(head, data, rest);
    assert Written(e) + rest == head + ("\n" + (data + ("\n\n" + rest)));
    assert FrameOf(e) == head + ("\n" + data);
  }

  lemma {:induction false} TwoLines(head: string, data: string)
    requires OneLine(head) && OneLine(data)
    ensures Split(head + ("\n" + data), BetweenLines) == [head, data]
  {
    OneLineGoesFirst(data, "", BetweenLines);
    assert data + "" == data;
    var middle := "\n" + data;
    assert middle[1..] == data;
    SplitBreak(middle, BetweenLines);
    OneLineGoesFirst(head, middle, BetweenLines);
    assert head + "" == head;
  }

  /** A frame has two lines, the event's kind and its data. */
  lemma {:induction false} FrameHasTwoLines(e: Event)
    requires Writable(e)
    ensures Split(FrameOf(e), BetweenLines) == ["event: " + e.kind, "data: " + e.data]
  {
    TwoLines("event: " + e.kind, "data: " + e.data);
  }

  lemma {:induction false} OnlySecondIsData(head: string, text: string)
    requires head != "" && head[0] != 'd' && text != "" && !JsSpace(text[0])
    ensures DataLines([head, "data: " + text]) == [text]
  {
    var data := "data: " + text;
    assert data[..5] == "data:" && data[5..] == " " + text;
    assert (" " + text)[1..] == text;
    assert TrimStart(data[5..]) == text;
    assert DataLines([data]) == [text];
    assert [head, data][1..] == [data];
  }

  lemma {:induction false} FrameDelivers(e: Event)
    requires Writable(e)
    ensures Payload(FrameOf(e)) == Some(e.data)
  {
    var head, data := "event: " + e.kind, "data: " + e.data;
    TwoLines(head, data);
    assert FrameOf(e) == head + ("\n" + data);
    OnlySecondIsData(head, e.data);
  }

  lemma {:induction false} StreamSplits(es: seq<Event>)
    requires forall i :: 0 <= i < |es| ==> Writable(es[i])
    ensures Last(Split(Stream(es), BetweenFrames)) == ""
    ensures Payloads(Front(Split(Stream(es), BetweenFrames))) == DataOf(es)
  {
    if es != [] {
      var rest := Split(Stream(es[1..]), BetweenFrames);
      StreamSplits(es[1..]);
      FrameIsSplitOff(es[0], Stream(es[1..]));
      FrameDelivers(es[0]);
      assert Front([FrameOf(es[0])] + rest) == [FrameOf(es[0])] + Front(rest);
      PayloadsAppend([FrameOf(es[0])], Front(rest));
    }
  }

  /** One reading of a written stream delivers the written data, in order. */
  lemma {:induction false} RoundTrip(es: seq<Event>)
    requires forall i :: 0 <= i < |es| ==> Writable(es[i])
    ensures Delivered(Stream(es)) == DataOf(es)
  {
    StreamSplits(es);
  }

  /**
   While the stream is still coming in, what has been delivered is a prefix of what was written: no event is ever torn.
   */
  lemma {:induction false} DeliveredInOrder(es: seq<Event>, arrived: string, coming: string)
    requires forall i :: 0 <= i < |es| ==> Writable(es[i])
    requires arrived + coming == Stream(es)
    ensures Payloads(Front(Split(arrived, BetweenFrames))) <= DataOf(es)
  {
    StreamSplits(es);
    SplitResumes(arrived, coming);
    var front, rest := Front(Split(arrived, BetweenFrames)),
      Split(Last(Split(arrived, BetweenFrames)) + coming, BetweenFrames);
    assert Front(front + rest) == front + Front(rest);
    PayloadsAppend(front, Front(rest));
  }
}

/** The server's side of the event stream. */
module SseWriter {
  import opened SseStream

  class ResponseBody {
    var text: string

    constructor ()
      ensures text == ""
    {
      text := "";
    }

    method WriteSseEvent(e: Event)
      modifies this
      ensures text == old(text) + Written(e)
    {
      text := text + ("event: " + e.kind + ("\n" + ("data: " + e.data)) + "\n\n");
    }

    // The events of a run, until the client is gone after `connected` of them.
    method SendAll(events: seq<Event>, connected: nat)
      modifies this
      ensures text == old(text) + Stream(if connected < |events| then events[..connected] else events)
    {
      var i := 0;
      while i < |events| && i < connected
        invariant 0 <= i <= |events| && i <= connected
        invariant text == old(text) + Stream(events[..i])
      {
        StreamLast(events, i);
        WriteSseEvent(events[i]);
        i := i + 1;
      }
      assert events[..|events|] == events;
    }
  }

  // The text as it arrives: reads of any lengths, then what is left.
  method Transmit(text: string, lengths: seq<nat>) returns (chunks: seq<string>)
    ensures |chunks| == |lengths| + 1 && Whole(chunks, |chunks|) == text
    ensures forall i :: 0 <= i < |lengths| ==> |chunks[i]| <= lengths[i]
  {
    chunks := [];
    var rest := text;
    for i := 0 to |lengths|
      invariant |chunks| == i && Whole(chunks, i) + rest == text
      invariant forall k :: 0 <= k < i ==> |chunks[k]| <= lengths[k]
    {
      var chunk;
      chunk, rest := Read(Whole(chunks, i), rest, lengths[i]);
      WholeMore(chunks, chunk);
      chunks := chunks + [chunk];
    }
    WholeMore(chunks, rest);
    chunks := chunks + [rest];
  }

  method Read(ghost arrived: string, coming: string, length: nat) returns (chunk: string, rest: string)
    ensures |chunk| <= length && chunk + rest == coming && (arrived + chunk) + rest == arrived + coming
  {
    var n := if length <= |coming| then length else |coming|;
    chunk, rest := coming[..n], coming[n..];
    assert (arrived + chunk) + rest == arrived + (chunk + rest);
  }

  lemma {:induction false} WholeMore(chunks: seq<string>, chunk: string)
    ensures Whole(chunks + [chunk], |chunks| + 1) == Whole(chunks, |chunks|) + chunk
  {
    WholePrefix(chunks, chunks + [chunk], |chunks|);
  }

  lemma {:induction false} WholePrefix(a: seq<string>, b: seq<string>, n: nat)
    requires n <= |a| && a <= b
    ensures Whole(a, n) == Whole(b, n)
  {
    if n > 0 {
      WholePrefix(a, b, n - 1);
    }
  }

  /**
   Round trip: the events the server sends before the client is gone are delivered to the client, exactly, in
   order, however the stream is cut into reads.
   */
  method SendAndRead(events: seq<Event>, connected: nat, lengths: seq<nat>) returns (delivered: seq<string>)
    requires forall i :: 0 <= i < |events| ==> Writable(events[i])
    ensures delivered == DataOf(if connected < |events| then events[..connected] else events)
  {
    var body := new ResponseBody();
    body.SendAll(events, connected);
    RoundTrip(if connected < |events| then events[..connected] else events);
    var chunks := Transmit(body.text, lengths);
    delivered := StreamChat(chunks);
  }

  lemma {:induction false} StreamLast(es: seq<Event>, n: nat)
    requires n < |es|
    ensures Stream(es[..n + 1]) == Stream(es[..n]) + Written(es[n])
    decreases |es|
  {
    if n == 0 {
      assert es[..1] == [es[0]];
    } else {
      assert es[..n + 1][1..] == es[1..][..n] && es[..n][1..] == es[1..][..n - 1];
      StreamLast(es[1..], n - 1);
    }
  }
}
